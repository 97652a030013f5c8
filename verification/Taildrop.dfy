/** Sending files over a message stream: chunks framed by end-of-file marks, read through a buffer
    and acknowledged as they are read. */
module Taildrop {
  import opened Basics

  const ACK_INTERVAL: nat := 0x10_0000

  type Bytes = seq<nat>

  datatype Message = Chunk(data: Bytes) | FileDone | Other

  // ---- framing ----

  /** The bytes of the chunks in a run of messages. */
  function Payload(messages: seq<Message>): Bytes {
    if messages == [] then []
    else
      var last := messages[|messages| - 1];
      Payload(messages[..|messages| - 1]) + if last.Chunk? then last.data else []
  }

  /** The first end-of-file mark from a point on, or the end of the messages. */
  function EndOf(messages: seq<Message>, from: nat): (end: nat)
    requires from <= |messages|
    ensures from <= end <= |messages|
    ensures end < |messages| ==> messages[end].FileDone?
    ensures forall i :: from <= i < end ==> !messages[i].FileDone?
    decreases |messages| - from
  {
    if from == |messages| || messages[from].FileDone? then from else EndOf(messages, from + 1)
  }

  /** Where the k-th file begins: after k end-of-file marks. */
  function BeginOf(messages: seq<Message>, k: nat): Option<nat> {
    if k == 0 then Some(0)
    else
      var before := BeginOf(messages, k - 1);
      if before.None? || before.value > |messages| then None
      else
        var end := EndOf(messages, before.value);
        if end == |messages| then None else Some(end + 1)
  }

  /** The bytes between the k-th and the next end-of-file mark, if the stream has both. */
  function Segment(messages: seq<Message>, k: nat): Option<Bytes> {
    var from := BeginOf(messages, k);
    if from.None? || from.value > |messages| then None
    else
      var end := EndOf(messages, from.value);
      if end == |messages| then None else Some(Payload(messages[from.value..end]))
  }

  lemma PayloadMore(messages: seq<Message>, from: nat, to: nat)
    requires from <= to < |messages|
    ensures Payload(messages[from..to + 1]) ==
            Payload(messages[from..to]) + if messages[to].Chunk? then messages[to].data else []
  {
    var more := messages[from..to + 1];
    assert more[..|more| - 1] == messages[from..to];
  }

  lemma EndIs(messages: seq<Message>, from: nat, end: nat)
    requires from <= end < |messages| && messages[end].FileDone?
    requires forall i :: from <= i < end ==> !messages[i].FileDone?
    ensures EndOf(messages, from) == end
  {
  }

  /** The messages of a file up to a point: chunks, whose bytes are those read and those buffered,
      and at most one end-of-file mark, which comes last. */
  ghost predicate IsFramed(messages: seq<Message>, start: nat, at: nat, file: Bytes, buffer: Bytes, done: bool) {
    && start <= at <= |messages|
    && Payload(messages[start..at]) == file + buffer
    && (done ==> start < at && messages[at - 1].FileDone?)
    && (forall i :: start <= i < at ==> messages[i].Chunk? || (done && i == at - 1))
  }

  lemma FrameBegins(messages: seq<Message>, at: nat)
    requires at <= |messages|
    ensures IsFramed(messages, at, at, [], [], false)
  {
    assert messages[at..at] == [];
  }

  lemma FrameGrows(messages: seq<Message>, start: nat, at: nat, file: Bytes)
    requires IsFramed(messages, start, at, file, [], false) && at < |messages|
    ensures messages[at].Chunk? ==> IsFramed(messages, start, at + 1, file, messages[at].data, false)
    ensures messages[at].FileDone? ==> IsFramed(messages, start, at + 1, file, [], true)
  {
    PayloadMore(messages, start, at);
    assert file + [] == file;
  }

  /** Bytes move from the buffer to the file. */
  lemma FrameMoves(messages: seq<Message>, start: nat, at: nat, file: Bytes, buffer: Bytes, done: bool, n: nat)
    requires IsFramed(messages, start, at, file, buffer, done) && n <= |buffer|
    ensures IsFramed(messages, start, at, file + buffer[..n], buffer[n..], done)
  {
    assert file + buffer[..n] + buffer[n..] == file + buffer;
  }

  /** The file is the bytes of the messages from its start to its mark, the last message before a point. */
  ghost predicate IsFile(messages: seq<Message>, start: nat, at: nat, file: Bytes) {
    start < at <= |messages| && EndOf(messages, start) == at - 1 && Payload(messages[start..at - 1]) == file
  }

  /** A file whose mark has come and whose buffer is empty is the bytes up to that mark. */
  lemma FrameEnds(messages: seq<Message>, start: nat, at: nat, file: Bytes, buffer: Bytes, done: bool)
    requires IsFramed(messages, start, at, file, buffer, done) && buffer == [] && done
    ensures IsFile(messages, start, at, file)
  {
    EndIs(messages, start, at - 1);
    PayloadMore(messages, start, at - 1);
    assert file + [] == file;
  }

  function LastReport(reports: seq<nat>): nat {
    if reports == [] then 0 else reports[|reports| - 1]
  }

  /** The last report is the acknowledged count, reports are an interval apart, and less than an
      interval is unacknowledged. */
  ghost predicate IsAcknowledged(received: nat, acknowledged: nat, reports: seq<nat>) {
    && acknowledged <= received < acknowledged + ACK_INTERVAL
    && IsSpaced(acknowledged, reports)
  }

  ghost predicate IsSpaced(acknowledged: nat, reports: seq<nat>) {
    && acknowledged == LastReport(reports)
    && (forall i :: 0 <= i < |reports| ==> ACK_INTERVAL <= reports[i] <= acknowledged)
    && (forall i, j :: 0 <= i < j < |reports| ==> reports[i] + ACK_INTERVAL <= reports[j])
  }

  // ---- the reader ----

  datatype Received = Data(bytes: Bytes) | Eof | Broken

  /** The first message from a point on that is not an empty chunk, or the end of the messages. */
  function NextStop(messages: seq<Message>, from: nat): (stop: nat)
    requires from <= |messages|
    ensures from <= stop <= |messages|
    ensures stop < |messages| ==> messages[stop] != Chunk([])
    ensures forall i :: from <= i < stop ==> messages[i] == Chunk([])
    decreases |messages| - from
  {
    if from == |messages| || messages[from] != Chunk([]) then from else NextStop(messages, from + 1)
  }

  function Front(bytes: Bytes, n: nat): Bytes {
    if n < |bytes| then bytes[..n] else bytes
  }

  /** What a read draws from: the buffer if it has any bytes; at the end of the file nothing;
      otherwise the next chunk that has bytes. */
  function Source(messages: seq<Message>, at: nat, buffer: Bytes, done: bool): Received
    requires at <= |messages|
  {
    if buffer != [] then Data(buffer)
    else if done then Eof
    else
      var stop := NextStop(messages, at);
      if stop == |messages| || messages[stop].Other? then Broken
      else if messages[stop].FileDone? then Eof
      else Data(messages[stop].data)
  }

  /** A read of n bytes returns at most that many of them. */
  function ReadResult(messages: seq<Message>, at: nat, buffer: Bytes, done: bool, n: nat): Received
    requires at <= |messages|
  {
    var source := Source(messages, at, buffer, done);
    if source.Data? then Data(Front(source.bytes, n)) else source
  }

  /** A file can be finished: nothing is left of it but its end. */
  predicate CanFinish(messages: seq<Message>, at: nat, buffer: Bytes, done: bool)
    requires at <= |messages|
  {
    buffer == [] && (done || (NextStop(messages, at) < |messages| && messages[NextStop(messages, at)].FileDone?))
  }

  /** taildropChunkReader, over the messages the client sends. `start` and `file` are history: where
      the current file began, and what was read of it. */
  class ChunkReader {
    const messages: seq<Message>
    var at: nat
    var buffer: Bytes
    var fileDone: bool
    var fileReceived: nat
    var received: nat
    var acknowledged: nat
    var reports: seq<nat>
    ghost var start: nat
    ghost var file: Bytes

    ghost predicate Framed()
      reads this
    {
      fileReceived == |file| && IsFramed(messages, start, at, file, buffer, fileDone)
    }

    ghost predicate Acknowledged()
      reads this
    {
      IsAcknowledged(received, acknowledged, reports)
    }

    ghost predicate Valid()
      reads this
    {
      Framed() && Acknowledged()
    }

    constructor (messages: seq<Message>)
      ensures this.messages == messages && Valid()
      ensures start == at == 0 && file == [] && buffer == [] && received == 0 && reports == []
    {
      this.messages := messages;
      at, buffer, fileDone, fileReceived, received, acknowledged, reports := 0, [], false, 0, 0, 0, [];
      start, file := 0, [];
    }

    /** beginFile: the file begins where the messages have been read to. */
    method BeginFile()
      requires Valid() && buffer == []
      modifies this
      ensures Valid() && start == at == old(at) && file == [] && buffer == [] && !fileDone
      ensures received == old(received) && reports == old(reports)
    {
      fileDone := false;
      fileReceived := 0;
      start, file := at, [];
      FrameBegins(messages, at);
    }

    /** Takes one message; a chunk fills the empty buffer. */
    method Receive() returns (ok: bool)
      requires Valid() && buffer == [] && !fileDone
      modifies `at, `buffer, `fileDone
      ensures ok ==> Valid() && at == old(at) + 1
      ensures ok ==>
                && (messages[old(at)].FileDone? <==> fileDone)
                && (messages[old(at)].Chunk? ==> buffer == messages[old(at)].data)
      ensures ok && fileDone ==> buffer == []
      ensures ok <==> old(at) < |messages| && !messages[old(at)].Other?
    {
      if at == |messages| {
        return false;
      }
      var message := messages[at];
      FrameGrows(messages, start, at, file);
      match message
      case Chunk(data) =>
        at, buffer := at + 1, data;
        return true;
      case FileDone =>
        at, fileDone := at + 1, true;
        return true;
      case Other =>
        at := at + 1;
        return false;
    }

    method Report()
      requires acknowledged <= received && IsSpaced(acknowledged, reports)
      modifies `acknowledged, `reports
      ensures Acknowledged()
      ensures reports == AfterRead(received, old(reports))
    {
      if received - acknowledged >= ACK_INTERVAL {
        acknowledged := received;
        reports := reports + [received];
      }
    }

    /** The loop of Read: receives until there are bytes. */
    method Fill() returns (r: Received)
      requires Valid()
      modifies `at, `buffer, `fileDone
      ensures r == Source(messages, old(at), old(buffer), old(fileDone))
      ensures !r.Broken? ==> Valid()
      ensures r.Data? ==> buffer == r.bytes != []
      ensures r.Eof? ==> fileDone && buffer == []
    {
      while |buffer| == 0
        invariant Valid()
        invariant Source(messages, at, buffer, fileDone) == Source(messages, old(at), old(buffer), old(fileDone))
        decreases |messages| - at, |buffer| == 0
      {
        if fileDone {
          return Eof;
        }
        var ok := Receive();
        if !ok {
          return Broken;
        }
      }
      return Data(buffer);
    }

    /** Read, into a destination of n bytes. */
    method Read(n: nat) returns (r: Received)
      requires Valid()
      modifies this
      ensures start == old(start)
      ensures !r.Broken? ==> Valid()
      ensures r == ReadResult(messages, old(at), old(buffer), old(fileDone), n)
      ensures r.Data? ==> file == old(file) + r.bytes && received == old(received) + |r.bytes|
      ensures r.Eof? ==> fileDone && buffer == [] && file == old(file) && received == old(received)
      ensures reports == if r.Data? then AfterRead(received, old(reports)) else old(reports)
    {
      r := Fill();
      if !r.Data? {
        return;
      }
      var bytes := Take(n);
      return Data(bytes);
    }

    /** The rest of Read: moves bytes out of the buffer and counts them. */
    method Take(n: nat) returns (bytes: Bytes)
      requires Valid() && buffer != []
      modifies this
      ensures Valid() && start == old(start)
      ensures bytes == Front(old(buffer), n) && file == old(file) + bytes && received == old(received) + |bytes|
      ensures reports == AfterRead(received, old(reports))
    {
      var size := if n < |buffer| then n else |buffer|;
      bytes := buffer[..size];
      FrameMoves(messages, start, at, file, buffer, fileDone, size);
      buffer := buffer[size..];
      file := file + bytes;
      fileReceived := fileReceived + size;
      received := received + size;
      Report();
    }

    /** The loop of finishFile: receives until the end-of-file mark. */
    method Drain() returns (ok: bool)
      requires Valid()
      modifies `at, `buffer, `fileDone
      ensures ok <==> CanFinish(messages, old(at), old(buffer), old(fileDone))
      ensures ok ==> Valid() && fileDone && buffer == []
    {
      while !fileDone
        invariant Valid()
        invariant CanFinish(messages, at, buffer, fileDone) <==>
                  CanFinish(messages, old(at), old(buffer), old(fileDone))
        decreases |messages| - at
      {
        if |buffer| > 0 {
          return false;
        }
        ok := Receive();
        if !ok {
          return false;
        }
      }
      return |buffer| == 0;
    }

    /** finishFile */
    method FinishFile(declaredSize: int) returns (ok: bool)
      requires Valid()
      modifies this
      ensures start == old(start) && file == old(file) && received == old(received) && reports == old(reports)
      ensures ok <==>
              CanFinish(messages, old(at), old(buffer), old(fileDone)) && (declaredSize >= 0 ==> |file| == declaredSize)
      ensures ok ==> Valid() && fileDone && buffer == []
      ensures ok ==> IsFile(messages, start, at, file)
    {
      ok := Drain();
      if !ok {
        return false;
      }
      if declaredSize >= 0 && fileReceived != declaredSize {
        return false;
      }
      FrameEnds(messages, start, at, file, buffer, fileDone);
      return true;
    }
  }

  /** The bytes a transfer reads for one file: it asks for as many as it likes, as often as it likes. */
  method TransferFile(reader: ChunkReader, asks: seq<nat>) returns (ok: bool, bytes: Bytes)
    requires reader.Valid() && reader.file == []
    modifies reader
    ensures reader.start == old(reader.start)
    ensures ok ==> reader.Valid() && bytes == reader.file
  {
    bytes := [];
    for i := 0 to |asks|
      invariant reader.Valid() && bytes == reader.file && reader.start == old(reader.start)
    {
      var r := reader.Read(asks[i]);
      match r
      case Data(more) => bytes := bytes + more;
      case Eof => return true, bytes;
      case Broken => return false, bytes;
    }
    return true, bytes;
  }

  lemma NextSegment(messages: seq<Message>, k: nat, from: nat, at: nat, file: Bytes)
    requires BeginOf(messages, k) == Some(from) && IsFile(messages, from, at, file)
    ensures Segment(messages, k) == Some(file) && BeginOf(messages, k + 1) == Some(at)
  {
  }

  /** One file: begun, transferred and finished. */
  method SendFile(reader: ChunkReader, size: int, asks: seq<nat>, ghost k: nat) returns (ok: bool, bytes: Bytes)
    requires reader.Valid() && reader.buffer == [] && BeginOf(reader.messages, k) == Some(reader.at)
    modifies reader
    ensures ok ==> reader.Valid() && reader.buffer == [] && BeginOf(reader.messages, k + 1) == Some(reader.at)
    ensures ok ==> Segment(reader.messages, k) == Some(bytes) && (size >= 0 ==> |bytes| == size)
  {
    reader.BeginFile();
    ok, bytes := TransferFile(reader, asks);
    if ok {
      ok := reader.FinishFile(size);
    }
    if ok {
      NextSegment(reader.messages, k, reader.start, reader.at, bytes);
    }
  }

  /** Each file is exactly its segment of the stream, and has its declared size. */
  ghost predicate Delivered(messages: seq<Message>, sizes: seq<int>, files: seq<Bytes>) {
    && |files| <= |sizes|
    && forall k :: 0 <= k < |files| ==>
         Segment(messages, k) == Some(files[k]) && (sizes[k] >= 0 ==> |files[k]| == sizes[k])
  }

  lemma DeliveredMore(messages: seq<Message>, sizes: seq<int>, files: seq<Bytes>, bytes: Bytes)
    requires Delivered(messages, sizes, files) && |files| < |sizes|
    requires Segment(messages, |files|) == Some(bytes) && (sizes[|files|] >= 0 ==> |bytes| == sizes[|files|])
    ensures Delivered(messages, sizes, files + [bytes])
  {
  }

  /** The loop of SendTaildropFiles: one file after another from the same reader. */
  method SendFiles(messages: seq<Message>, sizes: seq<int>, asks: seq<seq<nat>>) returns (ok: bool, files: seq<Bytes>)
    requires |asks| == |sizes|
    ensures Delivered(messages, sizes, files) && (ok <==> |files| == |sizes|)
  {
    var reader := new ChunkReader(messages);
    files := [];
    while |files| < |sizes|
      invariant Delivered(messages, sizes, files) && fresh(reader) && reader.messages == messages && reader.Valid() &&
                reader.buffer == []
      invariant BeginOf(messages, |files|) == Some(reader.at)
    {
      var bytes;
      ok, bytes := SendFile(reader, sizes[|files|], asks[|files|], |files|);
      if !ok {
        return false, files;
      }
      DeliveredMore(messages, sizes, files, bytes);
      files := files + [bytes];
    }
    return true, files;
  }

  // ---- flow control ----

  /** A sender and the reader: what was sent, what was read and reported, and how many of the
      reports have reached the sender, which keeps the bytes it has no report for within its window. */
  datatype Flow = Flow(window: nat, sent: nat, received: nat, reports: seq<nat>, seen: nat)

  /** The count in the last report the sender has. */
  function SeenCount(f: Flow): nat
    requires f.seen <= |f.reports|
  {
    LastReport(f.reports[..f.seen])
  }

  datatype FlowStep = Send(n: nat) | Take(n: nat) | Deliver

  predicate FlowEnabled(f: Flow, e: FlowStep) {
    match e
    case Send(n) => n > 0 && f.seen <= |f.reports| && f.sent + n <= SeenCount(f) + f.window
    case Take(n) => n > 0 && f.received + n <= f.sent
    case Deliver => f.seen < |f.reports|
  }

  /** The reports after a read: one more once an interval is unacknowledged. */
  function AfterRead(received: nat, reports: seq<nat>): seq<nat> {
    if received >= LastReport(reports) + ACK_INTERVAL then reports + [received] else reports
  }

  function FlowNext(f: Flow, e: FlowStep): Flow
    requires FlowEnabled(f, e)
  {
    match e
    case Send(n) => f.(sent := f.sent + n)
    case Take(n) => f.(received := f.received + n, reports := AfterRead(f.received + n, f.reports))
    case Deliver => f.(seen := f.seen + 1)
  }

  ghost predicate FlowRun(f: Flow, steps: seq<FlowStep>, last: Flow)
    decreases |steps|
  {
    if steps == [] then f == last
    else FlowEnabled(f, steps[0]) && FlowRun(FlowNext(f, steps[0]), steps[1..], last)
  }

  ghost predicate FlowOk(f: Flow) {
    && f.seen <= |f.reports| && f.received <= f.sent <= SeenCount(f) + f.window
    && IsAcknowledged(f.received, LastReport(f.reports), f.reports)
  }

  lemma FlowStepOk(f: Flow, e: FlowStep)
    requires FlowOk(f) && FlowEnabled(f, e)
    ensures FlowOk(FlowNext(f, e))
  {
    var g := FlowNext(f, e);
    match e
    case Send(_) =>
    case Take(_) => assert g.reports[..g.seen] == f.reports[..f.seen];
    case Deliver =>
      assert f.reports[..f.seen + 1][f.seen] == f.reports[f.seen];
      assert SeenCount(f) <= SeenCount(g);
  }

  lemma {:induction false} FlowRunOk(f: Flow, steps: seq<FlowStep>, last: Flow)
    requires FlowOk(f) && FlowRun(f, steps, last)
    ensures FlowOk(last) && last.window == f.window
    decreases |steps|
  {
    if steps != [] {
      FlowStepOk(f, steps[0]);
      FlowRunOk(FlowNext(f, steps[0]), steps[1..], last);
    }
  }

  /** With a window of at least the interval, at every point of every run a sender that cannot send
      has bytes under way to the reader or a report under way to it: it is never stuck. */
  lemma SenderIsNeverStuck(window: nat, steps: seq<FlowStep>, last: Flow)
    requires window >= ACK_INTERVAL && FlowRun(Flow(window, 0, 0, [], 0), steps, last)
    ensures FlowEnabled(last, Send(1)) || last.received < last.sent || last.seen < |last.reports|
  {
    FlowRunOk(Flow(window, 0, 0, [], 0), steps, last);
    assert last.reports[..|last.reports|] == last.reports;
  }

  /** With a smaller window there is a run in which the sender is stuck: nothing is under way. */
  lemma SmallWindowCanStick(window: nat)
    requires window < ACK_INTERVAL
    ensures exists steps, last ::
              && FlowRun(Flow(window, 0, 0, [], 0), steps, last)
              && !FlowEnabled(last, Send(1)) && last.received == last.sent && last.seen == |last.reports|
  {
    var start, sent := Flow(window, 0, 0, [], 0), Flow(window, window, 0, [], 0);
    if window == 0 {
      assert FlowRun(start, [], start);
      return;
    }
    var last := Flow(window, window, window, [], 0);
    assert FlowNext(start, Send(window)) == sent && FlowNext(sent, Take(window)) == last;
    var steps := [Send(window), Take(window)];
    assert steps[1..] == [Take(window)] && steps[1..][1..] == [];
    assert FlowRun(last, [], last);
    assert FlowRun(sent, steps[1..], last);
    assert FlowRun(start, steps, last);
  }
}
