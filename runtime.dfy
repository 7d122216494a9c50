/**
  The part of log4j this library relies on, reduced to one thread of
  control: the calling thread's context, the capturing appender registered
  in the configuration (at most one here), and the log of every event the
  logging facade has produced. Code handed to the library as a Runnable or
  a Supplier is modelled as a `Work` value and run by `Runtime.Execute`.
  ThreadContextLogHandler.runWith is `Runtime.RunWith`.
 */
module LogRuntime {
  import opened Wrappers
  import opened ThreadContext
  import opened FileAppender

  /** The body of a Runnable or Supplier: a script whose steps log, open a
      nested context scope, or run work on another thread, and which ends by
      returning a value or throwing. */
  datatype Work<T> =
    | Return(value: T)
    | Throw(error: string)
      /** log.info(message), under the current thread context */
    | Info(message: string, rest: Work<T>)
      /** ThreadContextLogHandler.runWith(values, body), then `rest`;
          an exception escaping the body propagates */
    | WithContext(values: Context, body: Work<T>, rest: Work<T>)
      /** run `body` on a new thread, which starts with an empty context,
          and join it before `rest`; its exception stays on that thread */
    | Spawn(body: Work<T>, rest: Work<T>)
      /** as Spawn, but the child runs runWith(parentContext, body) with
          the snapshot taken on the parent before dispatch */
    | SpawnWithParentContext(body: Work<T>, rest: Work<T>)

  /** Everything the library can observe or change. */
  datatype World = World(context: Context, sink: Option<Sink>, emitted: seq<Record>)

  datatype Emission = Emission(world: World, failure: Option<string>)

  datatype Run<T> = Run(world: World, outcome: Outcome<T>)

  /** The layout used when no appender is registered (nothing is rendered). */
  const NoLayout: Record -> string := (r: Record) => ""

  /** The records that came after `w` in `w'`. */
  function Since(w: World, w': World): (rs: seq<Record>)
    requires |w.emitted| <= |w'.emitted|
  {
    w'.emitted[|w.emitted|..]
  }

  /** `w'` is reachable from `w` by emitting records: the event log only
      grows, and the registered appender, if any, has received exactly the
      new records in order. */
  ghost predicate Follows(layout: Record -> string, w: World, w': World) {
    && w.emitted <= w'.emitted
    && w'.sink.Some? == w.sink.Some?
    && (w.sink.Some? ==> w'.sink.value == DeliverAll(layout, w.sink.value, Since(w, w')))
  }

  lemma FollowsTrans(layout: Record -> string, w0: World, w1: World, w2: World)
    requires Follows(layout, w0, w1) && Follows(layout, w1, w2)
    ensures Follows(layout, w0, w2)
  {
    assert Since(w0, w2) == Since(w0, w1) + Since(w1, w2);
    if w0.sink.Some? {
      DeliverAllConcat(layout, w0.sink.value, Since(w0, w1), Since(w1, w2));
    }
  }

  /** log.info(message): the event takes a snapshot of the thread context,
      and the registered appender, if any, receives it. `failure` is the
      exception the appender raised; the logging facade reports it to the
      status logger and does not rethrow it (see Exec). */
  function Emit(layout: Record -> string, w: World, message: string): (e: Emission)
    ensures e.world.context == w.context
    ensures e.world.emitted == w.emitted + [Record(w.context, message)]
    ensures Follows(layout, w, e.world)
    ensures e.failure == (if w.sink.None? then None else Deliver(layout, w.sink.value, Record(w.context, message)).failure)
    ensures e.failure.Some? <==>
              w.sink.Some? && Accepts(w.sink.value.fileId, Record(w.context, message))
              && !StartsWith(message, END_OF_LOG) && !w.sink.value.writerOpen
  {
    var r := Record(w.context, message);
    match w.sink
    case None => Emission(w.(emitted := w.emitted + [r]), None)
    case Some(s) =>
      var d := Deliver(layout, s, r);
      assert Since(w, w.(emitted := w.emitted + [r])) == [r];
      Emission(w.(sink := Some(d.sink), emitted := w.emitted + [r]), d.failure)
  }

  /** Records produced on other threads reach the pipeline one after the
      other; an exception from the appender goes back to the thread that
      emitted the record, so delivery goes on. */
  function PublishAll(layout: Record -> string, w: World, rs: seq<Record>): (w': World)
    ensures w'.context == w.context && w'.emitted == w.emitted + rs
    ensures Follows(layout, w, w')
  {
    var w' := World(w.context, if w.sink.None? then None else Some(DeliverAll(layout, w.sink.value, rs)), w.emitted + rs);
    assert Since(w, w') == rs;
    w'
  }

  /** Running a piece of work on the calling thread. The event log only
      grows and no appender is attached or detached; the outcome is the
      work's own (an appender's exception does not reach it). */
  function Exec<T>(layout: Record -> string, w: World, work: Work<T>): (r: Run<T>)
    ensures w.emitted <= r.world.emitted
    ensures r.world.sink.Some? == w.sink.Some?
    decreases work, 0
  {
    match work
    case Return(v) => Run(w, Returned(v))
    case Throw(e) => Run(w, Threw(e))
    case Info(m, rest) =>
      Exec(layout, Emit(layout, w, m).world, rest)
    case WithContext(values, body, rest) =>
      var r := ExecWith(layout, w, values, body);
      if r.outcome.Threw? then r else Exec(layout, r.world, rest)
    case Spawn(body, rest) =>
      var child := Exec(layout, w.(context := map[]), body);
      Exec(layout, child.world.(context := w.context), rest)
    case SpawnWithParentContext(body, rest) =>
      var child := ExecWith(layout, w.(context := map[]), w.context, body);
      Exec(layout, child.world.(context := w.context), rest)
  }

  /** runWith(values, body): putAll, run, close (also on an exception). */
  function ExecWith<T>(layout: Record -> string, w: World, values: Context, body: Work<T>): (r: Run<T>)
    ensures w.emitted <= r.world.emitted
    ensures r.world.sink.Some? == w.sink.Some?
    decreases body, 1
  {
    var saved := Saved(w.context, values);
    var r := Exec(layout, w.(context := PutAll(w.context, values)), body);
    Run(r.world.(context := Restore(r.world.context, saved)), r.outcome)
  }

  /** Running work leaves the thread context as it found it, and its only
      other effect is emitting records. */
  lemma {:induction false} ExecFrame<T>(layout: Record -> string, w: World, work: Work<T>)
    ensures Exec(layout, w, work).world.context == w.context
    ensures Follows(layout, w, Exec(layout, w, work).world)
    decreases work, 0
  {
    match work
    case Return(v) =>
    case Throw(e) =>
    case Info(m, rest) =>
      var e := Emit(layout, w, m);
      ExecFrame(layout, e.world, rest);
      FollowsTrans(layout, w, e.world, Exec(layout, e.world, rest).world);
    case WithContext(values, body, rest) =>
      var r := ExecWith(layout, w, values, body);
      ExecWithFrame(layout, w, values, body);
      if r.outcome.Returned? {
        ExecFrame(layout, r.world, rest);
        FollowsTrans(layout, w, r.world, Exec(layout, r.world, rest).world);
      }
    case Spawn(body, rest) =>
      var child := Exec(layout, w.(context := map[]), body);
      ExecFrame(layout, w.(context := map[]), body);
      var back := child.world.(context := w.context);
      ExecFrame(layout, back, rest);
      FollowsTrans(layout, w, back, Exec(layout, back, rest).world);
    case SpawnWithParentContext(body, rest) =>
      var child := ExecWith(layout, w.(context := map[]), w.context, body);
      ExecWithFrame(layout, w.(context := map[]), w.context, body);
      var back := child.world.(context := w.context);
      ExecFrame(layout, back, rest);
      FollowsTrans(layout, w, back, Exec(layout, back, rest).world);
  }

  lemma {:induction false} ExecWithFrame<T>(layout: Record -> string, w: World, values: Context, body: Work<T>)
    ensures ExecWith(layout, w, values, body).world.context == w.context
    ensures Follows(layout, w, ExecWith(layout, w, values, body).world)
    decreases body, 1
  {
    var inner := w.(context := PutAll(w.context, values));
    ExecFrame(layout, inner, body);
    RestoreUndoesPutAll(w.context, values);
  }

  /** No scope inside the work tags records with `fileId`. */
  predicate NeverTags<T>(work: Work<T>, fileId: string) {
    match work
    case Return(_) => true
    case Throw(_) => true
    case Info(_, rest) => NeverTags(rest, fileId)
    case WithContext(values, body, rest) =>
      !Tagged(values, fileId) && NeverTags(body, fileId) && NeverTags(rest, fileId)
    case Spawn(body, rest) => NeverTags(body, fileId) && NeverTags(rest, fileId)
    case SpawnWithParentContext(body, rest) => NeverTags(body, fileId) && NeverTags(rest, fileId)
  }

  /** No scope inside the work replaces the `fileId` tag, and every thread
      it starts is handed the parent's context. */
  predicate KeepsTag<T>(work: Work<T>, fileId: string) {
    match work
    case Return(_) => true
    case Throw(_) => true
    case Info(_, rest) => KeepsTag(rest, fileId)
    case WithContext(values, body, rest) =>
      (FILE_LOG_ID in values ==> values[FILE_LOG_ID] == fileId) && KeepsTag(body, fileId) && KeepsTag(rest, fileId)
    case Spawn(_, _) => false
    case SpawnWithParentContext(body, rest) => KeepsTag(body, fileId) && KeepsTag(rest, fileId)
  }

  /** Every record in `rs` satisfies Accepts(fileId, _) exactly when `accepted`. */
  ghost predicate AllAccepted(rs: seq<Record>, fileId: string, accepted: bool) {
    forall i :: 0 <= i < |rs| ==> Accepts(fileId, rs[i]) == accepted
  }

  lemma AllAcceptedConcat(w0: World, w1: World, w2: World, fileId: string, accepted: bool)
    requires w0.emitted <= w1.emitted <= w2.emitted
    requires AllAccepted(Since(w0, w1), fileId, accepted) && AllAccepted(Since(w1, w2), fileId, accepted)
    ensures AllAccepted(Since(w0, w2), fileId, accepted)
  {
    assert Since(w0, w2) == Since(w0, w1) + Since(w1, w2);
  }

  /** Code running under a context without the `fileId` tag, and opening no
      scope with it, emits only records the `fileId` appender denies. */
  lemma {:induction false} UntaggedNotCaptured<T>(layout: Record -> string, w: World, work: Work<T>, fileId: string)
    requires !Tagged(w.context, fileId) && NeverTags(work, fileId)
    ensures w.emitted <= Exec(layout, w, work).world.emitted
    ensures AllAccepted(Since(w, Exec(layout, w, work).world), fileId, false)
    decreases work, 0
  {
    ExecFrame(layout, w, work);
    match work
    case Return(v) =>
    case Throw(e) =>
    case Info(m, rest) =>
      var e := Emit(layout, w, m);
      UntaggedNotCaptured(layout, e.world, rest, fileId);
      AllAcceptedConcat(w, e.world, Exec(layout, e.world, rest).world, fileId, false);
    case WithContext(values, body, rest) =>
      var r := ExecWith(layout, w, values, body);
      ExecWithFrame(layout, w, values, body);
      UntaggedWithNotCaptured(layout, w, values, body, fileId);
      if r.outcome.Returned? {
        ExecFrame(layout, r.world, rest);
        UntaggedNotCaptured(layout, r.world, rest, fileId);
        AllAcceptedConcat(w, r.world, Exec(layout, r.world, rest).world, fileId, false);
      }
    case Spawn(body, rest) =>
      var child := Exec(layout, w.(context := map[]), body);
      UntaggedNotCaptured(layout, w.(context := map[]), body, fileId);
      var back := child.world.(context := w.context);
      UntaggedNotCaptured(layout, back, rest, fileId);
      AllAcceptedConcat(w, back, Exec(layout, back, rest).world, fileId, false);
    case SpawnWithParentContext(body, rest) =>
      var child := ExecWith(layout, w.(context := map[]), w.context, body);
      UntaggedWithNotCaptured(layout, w.(context := map[]), w.context, body, fileId);
      var back := child.world.(context := w.context);
      UntaggedNotCaptured(layout, back, rest, fileId);
      AllAcceptedConcat(w, back, Exec(layout, back, rest).world, fileId, false);
  }

  lemma {:induction false} UntaggedWithNotCaptured<T>(layout: Record -> string, w: World, values: Context, body: Work<T>, fileId: string)
    requires !Tagged(PutAll(w.context, values), fileId) && NeverTags(body, fileId)
    ensures w.emitted <= ExecWith(layout, w, values, body).world.emitted
    ensures AllAccepted(Since(w, ExecWith(layout, w, values, body).world), fileId, false)
    decreases body, 1
  {
    UntaggedNotCaptured(layout, w.(context := PutAll(w.context, values)), body, fileId);
  }

  /** Code running under the `fileId` tag, which keeps it in every scope and
      hands it to every thread it starts, emits only records the `fileId`
      appender accepts. */
  lemma {:induction false} TaggedCaptured<T>(layout: Record -> string, w: World, work: Work<T>, fileId: string)
    requires Tagged(w.context, fileId) && KeepsTag(work, fileId)
    ensures w.emitted <= Exec(layout, w, work).world.emitted
    ensures AllAccepted(Since(w, Exec(layout, w, work).world), fileId, true)
    decreases work, 0
  {
    ExecFrame(layout, w, work);
    match work
    case Return(v) =>
    case Throw(e) =>
    case Info(m, rest) =>
      var e := Emit(layout, w, m);
      TaggedCaptured(layout, e.world, rest, fileId);
      AllAcceptedConcat(w, e.world, Exec(layout, e.world, rest).world, fileId, true);
    case WithContext(values, body, rest) =>
      var r := ExecWith(layout, w, values, body);
      ExecWithFrame(layout, w, values, body);
      TaggedWithCaptured(layout, w, values, body, fileId);
      if r.outcome.Returned? {
        ExecFrame(layout, r.world, rest);
        TaggedCaptured(layout, r.world, rest, fileId);
        AllAcceptedConcat(w, r.world, Exec(layout, r.world, rest).world, fileId, true);
      }
    case SpawnWithParentContext(body, rest) =>
      var child := ExecWith(layout, w.(context := map[]), w.context, body);
      TaggedWithCaptured(layout, w.(context := map[]), w.context, body, fileId);
      var back := child.world.(context := w.context);
      TaggedCaptured(layout, back, rest, fileId);
      AllAcceptedConcat(w, back, Exec(layout, back, rest).world, fileId, true);
  }

  lemma {:induction false} TaggedWithCaptured<T>(layout: Record -> string, w: World, values: Context, body: Work<T>, fileId: string)
    requires Tagged(PutAll(w.context, values), fileId) && KeepsTag(body, fileId)
    ensures w.emitted <= ExecWith(layout, w, values, body).world.emitted
    ensures AllAccepted(Since(w, ExecWith(layout, w, values, body).world), fileId, true)
    decreases body, 1
  {
    TaggedCaptured(layout, w.(context := PutAll(w.context, values)), body, fileId);
  }

  /** No message the work logs starts with the end-of-log marker. */
  predicate NoMarker<T>(work: Work<T>) {
    match work
    case Return(_) => true
    case Throw(_) => true
    case Info(m, rest) => !StartsWith(m, END_OF_LOG) && NoMarker(rest)
    case WithContext(_, body, rest) => NoMarker(body) && NoMarker(rest)
    case Spawn(body, rest) => NoMarker(body) && NoMarker(rest)
    case SpawnWithParentContext(body, rest) => NoMarker(body) && NoMarker(rest)
  }

  ghost predicate NoEndOfLog(rs: seq<Record>) {
    forall i :: 0 <= i < |rs| ==> !IsEndOfLog(rs[i])
  }

  /** Work that never logs the marker emits no end-of-log record. */
  lemma NoEndOfLogConcat(w0: World, w1: World, w2: World)
    requires w0.emitted <= w1.emitted <= w2.emitted
    requires NoEndOfLog(Since(w0, w1)) && NoEndOfLog(Since(w1, w2))
    ensures NoEndOfLog(Since(w0, w2))
  {
    assert Since(w0, w2) == Since(w0, w1) + Since(w1, w2);
  }

  lemma {:induction false} NoMarkerEmitted<T>(layout: Record -> string, w: World, work: Work<T>)
    requires NoMarker(work)
    ensures w.emitted <= Exec(layout, w, work).world.emitted
    ensures NoEndOfLog(Since(w, Exec(layout, w, work).world))
    decreases work, 0
  {
    ExecFrame(layout, w, work);
    match work
    case Return(v) =>
    case Throw(e) =>
    case Info(m, rest) =>
      var e := Emit(layout, w, m);
      NoMarkerEmitted(layout, e.world, rest);
      NoEndOfLogConcat(w, e.world, Exec(layout, e.world, rest).world);
    case WithContext(values, body, rest) =>
      var r := ExecWith(layout, w, values, body);
      NoMarkerEmittedWith(layout, w, values, body);
      if r.outcome.Returned? {
        ExecFrame(layout, r.world, rest);
        NoMarkerEmitted(layout, r.world, rest);
        NoEndOfLogConcat(w, r.world, Exec(layout, r.world, rest).world);
      }
    case Spawn(body, rest) =>
      var child := Exec(layout, w.(context := map[]), body);
      NoMarkerEmitted(layout, w.(context := map[]), body);
      var back := child.world.(context := w.context);
      NoMarkerEmitted(layout, back, rest);
      NoEndOfLogConcat(w, back, Exec(layout, back, rest).world);
    case SpawnWithParentContext(body, rest) =>
      var child := ExecWith(layout, w.(context := map[]), w.context, body);
      NoMarkerEmittedWith(layout, w.(context := map[]), w.context, body);
      var back := child.world.(context := w.context);
      NoMarkerEmitted(layout, back, rest);
      NoEndOfLogConcat(w, back, Exec(layout, back, rest).world);
  }

  lemma {:induction false} NoMarkerEmittedWith<T>(layout: Record -> string, w: World, values: Context, body: Work<T>)
    requires NoMarker(body)
    ensures w.emitted <= ExecWith(layout, w, values, body).world.emitted
    ensures NoEndOfLog(Since(w, ExecWith(layout, w, values, body).world))
    decreases body, 1
  {
    NoMarkerEmitted(layout, w.(context := PutAll(w.context, values)), body);
  }

  /** A thread started without the parent's context: if nothing in its code
      opens a scope with `fileId`, the `fileId` appender is left untouched. */
  lemma SpawnedThreadNotCaptured<T>(layout: Record -> string, w: World, body: Work<T>)
    requires w.sink.Some? && NeverTags(body, w.sink.value.fileId)
    ensures Exec(layout, w.(context := map[]), body).world.sink == w.sink
  {
    var fileId := w.sink.value.fileId;
    var start := w.(context := map[]);
    ExecFrame(layout, start, body);
    UntaggedNotCaptured(layout, start, body, fileId);
    DeliverAllDenied(layout, w.sink.value, Since(start, Exec(layout, start, body).world));
  }

  /** A thread handed the parent's snapshot under the `fileId` tag: every
      record it emits is one the `fileId` appender accepts. */
  lemma PropagatedThreadCaptured<T>(layout: Record -> string, w: World, body: Work<T>, fileId: string)
    requires Tagged(w.context, fileId) && KeepsTag(body, fileId)
    ensures w.emitted <= ExecWith(layout, w.(context := map[]), w.context, body).world.emitted
    ensures AllAccepted(Since(w, ExecWith(layout, w.(context := map[]), w.context, body).world), fileId, true)
  {
    TaggedWithCaptured(layout, w.(context := map[]), w.context, body, fileId);
  }

  class Runtime {
    /** The calling thread's ThreadContext map. */
    var context: Context
    /** The capturing appender attached to the root logger, if any. */
    var sink: CustomFileAppender?
    /** Every event produced by the logging facade, in order. */
    var emitted: seq<Record>

    ghost predicate Valid()
      reads this, sink
    {
      sink != null ==> sink.Valid()
    }

    function View(): World
      reads this, sink
    {
      World(context, if sink == null then None else Some(sink.View()), emitted)
    }

    function Layout(): Record -> string
      reads this
    {
      if sink == null then NoLayout else sink.layout
    }

    constructor ()
      ensures Valid() && context == map[] && sink == null && emitted == []
    {
      context := map[];
      sink := null;
      emitted := [];
    }

    /** log.info(message); `failure` is what the appender raised, which the
        facade reports to the status logger. */
    method Info(message: string) returns (failure: Option<string>)
      requires Valid()
      modifies this, sink
      ensures Valid() && sink == old(sink)
      ensures Emission(View(), failure) == Emit(Layout(), old(View()), message)
    {
      var record := Record(context, message);
      emitted := emitted + [record];
      if sink != null {
        failure := sink.Append(record);
      } else {
        failure := None;
      }
    }

    /** Delivers records emitted meanwhile by other threads. */
    method Publish(records: seq<Record>)
      requires Valid()
      modifies this, sink
      ensures Valid() && sink == old(sink)
      ensures View() == PublishAll(Layout(), old(View()), records)
    {
      var i := 0;
      while i < |records|
        invariant 0 <= i <= |records|
        invariant Valid() && sink == old(sink) && context == old(context)
        invariant emitted == old(emitted) + records[..i]
        invariant sink != null ==> sink.View() == DeliverAll(Layout(), old(sink.View()), records[..i])
      {
        if sink != null {
          DeliverAllConcat(Layout(), old(sink.View()), records[..i], [records[i]]);
          assert records[..i + 1] == records[..i] + [records[i]];
          var ignored := sink.Append(records[i]);
        }
        emitted := emitted + [records[i]];
        i := i + 1;
      }
      assert records[..i] == records;
    }

    /** Runs the body of a Runnable or Supplier on the calling thread. */
    method Execute<T(==)>(work: Work<T>) returns (o: Outcome<T>)
      requires Valid()
      modifies this, sink
      ensures Valid() && sink == old(sink)
      ensures Run(View(), o) == Exec(Layout(), old(View()), work)
      decreases work, 0
    {
      match work
      case Return(v) =>
        o := Returned(v);
      case Throw(e) =>
        o := Threw(e);
      case Info(m, rest) =>
        var reported := Info(m);
        o := Execute(rest);
      case WithContext(values, body, rest) =>
        o := RunWith(values, body);
        if o.Returned? {
          o := Execute(rest);
        }
      case Spawn(body, rest) =>
        var parent := context;
        context := map[];
        var ignored := Execute(body);
        context := parent;
        o := Execute(rest);
      case SpawnWithParentContext(body, rest) =>
        var parent := context;
        context := map[];
        var ignored := RunWith(parent, body);
        context := parent;
        o := Execute(rest);
    }

    /** ThreadContextLogHandler.runWith(threadContext, supplier): the body
        runs with `values` overlaid on the context, which is restored
        afterwards whether the body returns or throws. */
    method RunWith<T(==)>(values: Context, body: Work<T>) returns (o: Outcome<T>)
      requires Valid()
      modifies this, sink
      ensures Valid() && sink == old(sink)
      ensures context == old(context)
      ensures Run(View(), o) == ExecWith(Layout(), old(View()), values, body)
      decreases body, 1
    {
      ExecWithFrame(Layout(), View(), values, body);
      var saved := Saved(context, values);
      context := PutAll(context, values);
      o := Execute(body);
      context := Restore(context, saved);
    }

    /** ThreadContextLogHandler.runWith(threadContext, runnable) */
    method RunWithRunnable(values: Context, body: Work<()>) returns (o: Outcome<()>)
      requires Valid()
      modifies this, sink
      ensures Valid() && sink == old(sink)
      ensures context == old(context)
      ensures Run(View(), o) == ExecWith(Layout(), old(View()), values, body)
    {
      o := RunWith(values, body);
    }
  }
}
