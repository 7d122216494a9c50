/**
  CustomFileAppender: the capturing sink. It owns a file of lines, a writer
  that is open or closed, and a `finished` flag. A record is written only if
  its thread context maps `file-log-id` to the appender's id; a matching
  record whose message starts with "END OF LOG" closes the writer and sets
  `finished` instead of being written.
 */
module FileAppender {
  import opened Wrappers
  import opened ThreadContext

  /** ThreadContextFileLogHandler.LOG_THREAD_CONTEXT_KEY */
  const FILE_LOG_ID: string := "file-log-id"
  /** ThreadContextFileLogHandler.END_OF_LOG */
  const END_OF_LOG: string := "END OF LOG"

  /** A log event: the snapshot of the emitting thread's context and the
      formatted message. */
  datatype Record = Record(context: Context, message: string)

  predicate StartsWith(s: string, prefix: string) {
    |prefix| <= |s| && s[..|prefix|] == prefix
  }

  /** The context maps `file-log-id` to `fileId`. */
  predicate Tagged(ctx: Context, fileId: string) {
    FILE_LOG_ID in ctx && ctx[FILE_LOG_ID] == fileId
  }

  /** The ThreadContextMapFilter built for one id: it denies every record
      whose context does not map `file-log-id` to that id. */
  predicate Accepts(fileId: string, r: Record) {
    Tagged(r.context, fileId)
  }

  /** The end-of-log marker test made on the formatted message. */
  predicate IsEndOfLog(r: Record) {
    StartsWith(r.message, END_OF_LOG)
  }

  /** The state of one appender: its id (its name and its filter's value),
      its file name, the lines written so far, whether the writer is open,
      and the `finished` flag. */
  datatype Sink = Sink(fileId: string, filename: string, file: seq<string>, writerOpen: bool, finished: bool)
  {
    /** The writer is closed exactly when the end-of-log record was seen. */
    predicate Valid() { writerOpen == !finished }
  }

  /** A freshly opened appender: FileWriter truncates the file. */
  function Fresh(fileId: string, filename: string): (s: Sink) {
    Sink(fileId, filename, [], true, false)
  }

  /** The state after one delivery, and the exception it raised, if any. */
  datatype Delivery = Delivery(sink: Sink, failure: Option<string>)

  /** CustomFileAppender.append on the value view. */
  function Deliver(layout: Record -> string, s: Sink, r: Record): (d: Delivery)
    ensures d.sink.fileId == s.fileId && d.sink.filename == s.filename
    ensures !Accepts(s.fileId, r) ==> d == Delivery(s, None)
    ensures s.finished ==> d.sink.finished
    ensures s.Valid() ==> d.sink.Valid()
    ensures d.sink.file == s.file || d.sink.file == s.file + [layout(r)]
    ensures d.sink.file != s.file ==> Accepts(s.fileId, r) && !IsEndOfLog(r)
    ensures d.sink.finished != s.finished ==> Accepts(s.fileId, r) && IsEndOfLog(r)
    ensures d.failure.Some? <==> Accepts(s.fileId, r) && !IsEndOfLog(r) && !s.writerOpen
    ensures d.failure.Some? ==> d.sink == s
    ensures Accepts(s.fileId, r) && IsEndOfLog(r) ==> d == Delivery(s.(writerOpen := false, finished := true), None)
    ensures Accepts(s.fileId, r) && !IsEndOfLog(r) && s.writerOpen ==> d == Delivery(s.(file := s.file + [layout(r)]), None)
  {
    if !Accepts(s.fileId, r) then
      Delivery(s, None)
    else if IsEndOfLog(r) then
      // the marker is never written: the writer is closed and the flag set
      Delivery(s.(writerOpen := false, finished := true), None)
    else if !s.writerOpen then
      // writing to a closed FileWriter raises an IOException, rethrown
      Delivery(s, Some("Error writing to file " + s.filename))
    else
      Delivery(s.(file := s.file + [layout(r)]), None)
  }

  /** The appender after a sequence of deliveries, in order. A failed
      delivery leaves the state as it was, so the fold goes on past it. */
  function DeliverAll(layout: Record -> string, s: Sink, rs: seq<Record>): (s': Sink)
    decreases |rs|
  {
    if rs == [] then s else DeliverAll(layout, Deliver(layout, s, rs[0]).sink, rs[1..])
  }

  /** Reference definition of what an open appender writes for `rs`: the
      renderings of the accepted records, in order, up to the first accepted
      end-of-log record. */
  function Captured(layout: Record -> string, fileId: string, rs: seq<Record>): (lines: seq<string>)
    decreases |rs|
  {
    if rs == [] then []
    else if Accepts(fileId, rs[0]) && IsEndOfLog(rs[0]) then []
    else (if Accepts(fileId, rs[0]) then [layout(rs[0])] else []) + Captured(layout, fileId, rs[1..])
  }

  /** Whether `rs` carries an accepted end-of-log record. */
  predicate HasEndOfLog(fileId: string, rs: seq<Record>) {
    exists i :: 0 <= i < |rs| && Accepts(fileId, rs[i]) && IsEndOfLog(rs[i])
  }

  /** The renderings of all of `rs`, in order. */
  function Renders(layout: Record -> string, rs: seq<Record>): (lines: seq<string>)
    ensures |lines| == |rs|
    ensures forall i :: 0 <= i < |rs| ==> lines[i] == layout(rs[i])
  {
    seq(|rs|, i requires 0 <= i < |rs| => layout(rs[i]))
  }

  lemma {:induction false} DeliverAllConcat(layout: Record -> string, s: Sink, rs: seq<Record>, more: seq<Record>)
    ensures DeliverAll(layout, s, rs + more) == DeliverAll(layout, DeliverAll(layout, s, rs), more)
    decreases |rs|
  {
    if rs == [] {
      assert rs + more == more;
    } else {
      assert (rs + more)[0] == rs[0] && (rs + more)[1..] == rs[1..] + more;
      DeliverAllConcat(layout, Deliver(layout, s, rs[0]).sink, rs[1..], more);
    }
  }

  /** Deliveries never change the appender's identity, never unset
      `finished`, and only ever add lines at the end of the file. */
  lemma {:induction false} DeliverAllMonotone(layout: Record -> string, s: Sink, rs: seq<Record>)
    ensures DeliverAll(layout, s, rs).fileId == s.fileId
    ensures DeliverAll(layout, s, rs).filename == s.filename
    ensures s.file <= DeliverAll(layout, s, rs).file
    ensures s.finished ==> DeliverAll(layout, s, rs).finished
    ensures s.Valid() ==> DeliverAll(layout, s, rs).Valid()
    decreases |rs|
  {
    if rs != [] {
      DeliverAllMonotone(layout, Deliver(layout, s, rs[0]).sink, rs[1..]);
    }
  }

  /** An open appender writes exactly Captured(rs) and is finished exactly
      when an accepted end-of-log record came by. */
  lemma {:induction false} DeliverAllWhileOpen(layout: Record -> string, s: Sink, rs: seq<Record>)
    requires s.Valid() && !s.finished
    ensures DeliverAll(layout, s, rs).file == s.file + Captured(layout, s.fileId, rs)
    ensures DeliverAll(layout, s, rs).finished <==> HasEndOfLog(s.fileId, rs)
    decreases |rs|
  {
    if rs != [] {
      var s1 := Deliver(layout, s, rs[0]).sink;
      if Accepts(s.fileId, rs[0]) && IsEndOfLog(rs[0]) {
        DeliverAllAfterFinish(layout, s1, rs[1..]);
        assert HasEndOfLog(s.fileId, rs) by { assert Accepts(s.fileId, rs[0]) && IsEndOfLog(rs[0]); }
      } else {
        DeliverAllWhileOpen(layout, s1, rs[1..]);
        if HasEndOfLog(s.fileId, rs) {
          var i :| 0 <= i < |rs| && Accepts(s.fileId, rs[i]) && IsEndOfLog(rs[i]);
          assert i > 0;
          assert rs[1..][i - 1] == rs[i];
        }
        if HasEndOfLog(s.fileId, rs[1..]) {
          var i :| 0 <= i < |rs[1..]| && Accepts(s.fileId, rs[1..][i]) && IsEndOfLog(rs[1..][i]);
          assert rs[i + 1] == rs[1..][i];
        }
      }
    }
  }

  /** Once finished, the file never changes again. */
  lemma {:induction false} DeliverAllAfterFinish(layout: Record -> string, s: Sink, rs: seq<Record>)
    requires s.Valid() && s.finished
    ensures DeliverAll(layout, s, rs) == s
    decreases |rs|
  {
    if rs != [] {
      var d := Deliver(layout, s, rs[0]);
      assert d.sink == s;
      DeliverAllAfterFinish(layout, s, rs[1..]);
    }
  }

  /** Records the filter denies leave the appender as it was. */
  lemma {:induction false} DeliverAllDenied(layout: Record -> string, s: Sink, rs: seq<Record>)
    requires forall i :: 0 <= i < |rs| ==> !Accepts(s.fileId, rs[i])
    ensures DeliverAll(layout, s, rs) == s
    decreases |rs|
  {
    if rs != [] {
      DeliverAllDenied(layout, s, rs[1..]);
    }
  }

  /** Isolation: every line an appender writes is the rendering of a record
      carrying its own id, and never of an end-of-log record. So the records
      of another id never reach this file. */
  lemma {:induction false} CapturedComesFromAccepted(layout: Record -> string, fileId: string, rs: seq<Record>, k: nat)
    requires k < |Captured(layout, fileId, rs)|
    ensures exists i :: 0 <= i < |rs| && Accepts(fileId, rs[i]) && !IsEndOfLog(rs[i])
                        && Captured(layout, fileId, rs)[k] == layout(rs[i])
    decreases |rs|
  {
    var head := if Accepts(fileId, rs[0]) then [layout(rs[0])] else [];
    assert Captured(layout, fileId, rs) == head + Captured(layout, fileId, rs[1..]);
    if k < |head| {
      assert Captured(layout, fileId, rs)[k] == layout(rs[0]);
    } else {
      CapturedComesFromAccepted(layout, fileId, rs[1..], k - |head|);
      var i :| 0 <= i < |rs[1..]| && Accepts(fileId, rs[1..][i]) && !IsEndOfLog(rs[1..][i])
               && Captured(layout, fileId, rs[1..])[k - |head|] == layout(rs[1..][i]);
      assert rs[i + 1] == rs[1..][i];
    }
  }

  /** When every record is accepted and none is an end-of-log record, the
      file gets exactly one rendered line per record, in order. */
  lemma {:induction false} CapturedAllAccepted(layout: Record -> string, fileId: string, rs: seq<Record>)
    requires forall i :: 0 <= i < |rs| ==> Accepts(fileId, rs[i]) && !IsEndOfLog(rs[i])
    ensures Captured(layout, fileId, rs) == Renders(layout, rs)
    ensures !HasEndOfLog(fileId, rs)
    decreases |rs|
  {
    if rs != [] {
      CapturedAllAccepted(layout, fileId, rs[1..]);
      assert Renders(layout, rs) == [layout(rs[0])] + Renders(layout, rs[1..]);
    }
  }

  class CustomFileAppender {
    const fileId: string
    const filename: string
    const layout: Record -> string
    var file: seq<string>
    var writerOpen: bool
    var finished: bool

    ghost predicate Valid()
      reads this
    {
      View().Valid()
    }

    function View(): Sink
      reads this
    {
      Sink(fileId, filename, file, writerOpen, finished)
    }

    /** isFinished(): the flag of the value view, which in a valid appender
        says that the writer has been closed. */
    function IsFinished(): (r: bool)
      reads this
      ensures r == View().finished
      ensures Valid() ==> (r <==> !writerOpen)
    {
      finished
    }

    /** Opens the file for writing, truncating it. */
    constructor (fileId: string, filename: string, layout: Record -> string)
      ensures Valid()
      ensures View() == Fresh(fileId, filename)
      ensures this.layout == layout
    {
      this.fileId := fileId;
      this.filename := filename;
      this.layout := layout;
      file := [];
      writerOpen := true;
      finished := false;
    }

    /** append(event): filter, end-of-log test, then write. */
    method Append(event: Record) returns (failure: Option<string>)
      requires Valid()
      modifies this
      ensures Valid()
      ensures Delivery(View(), failure) == Deliver(layout, old(View()), event)
      ensures !Accepts(fileId, event) ==> View() == old(View()) && failure == None
      ensures Accepts(fileId, event) && IsEndOfLog(event) ==>
                file == old(file) && !writerOpen && finished && failure == None
      ensures Accepts(fileId, event) && !IsEndOfLog(event) && old(writerOpen) ==>
                file == old(file) + [layout(event)] && writerOpen && !finished && failure == None
      ensures Accepts(fileId, event) && !IsEndOfLog(event) && !old(writerOpen) ==>
                View() == old(View()) && failure == Some("Error writing to file " + filename)
    {
      if Accepts(fileId, event) {
        if StartsWith(event.message, END_OF_LOG) {
          writerOpen := false;
          finished := true;
          return None;
        }
        if !writerOpen {
          return Some("Error writing to file " + filename);
        }
        file := file + [layout(event)];
        failure := None;
      } else {
        failure := None;
      }
    }
  }
}
