/** One RestJob together with the transfer libcurl runs for it.

    `Wire` is libcurl's side of the current attempt: the body of the final response, the part
    of it not yet accepted, and how far the response has come. A write that is answered with
    Pause leaves `remaining` as it is, so the same bytes come again. */
module Live {
  import opened Maybe
  import opened Text
  import opened Events
  import opened JobSpec

  datatype Wire = Wire(
    body: string,
    remaining: string,
    status: int,          // status of the final response
    statusSeen: bool,     // some status line has arrived in this attempt
    headersDone: bool,    // the header block of the final response has ended
    bodyStarted: bool,
    aborted: bool)        // a write callback refused bytes

  /** `history`, `accepted`, `credited`, `delays` and `statusLines` record the past:
      all events posted, all stream bytes taken from libcurl, all credit applied, the delays of
      the scheduled retries, and the number of status lines. `maxWrite` bounds a single write. */
  datatype Live = Live(
    job: Job,
    wire: Wire,
    maxWrite: nat,
    history: seq<Event>,
    accepted: string,
    credited: int,
    delays: seq<int>,
    statusLines: nat)

  datatype Label =
    | Begin(begin: BeginAnswers, body: string, finalStatus: int)
    | HeaderLine(line: string, status: int)
    | Write(n: nat, io: WriteAnswers)
    | Tick(now: int, dltotal: int, dlnow: int, ultotal: int, ulnow: int)
    | Consumed(bytes: nat)
    | Done(done: DoneAnswers)
    | CancelNow

  function Fresh(spec: RequestSpec, maxWrite: nat): Live {
    Live(NewJob(spec), Wire("", "", 0, false, false, false, false), maxWrite, [], "", 0, [], 0)
  }

  function StreamedTotal(l: Live): nat {
    |DataOf(l.history)|
  }

  function Log(l: Live, o: Out): Live {
    l.(job := o.job, history := l.history + o.posts)
  }

  // ---------------------------------------------------------------- the steps, and when they can happen

  predicate CanBegin(l: Live) {
    !l.job.finished && (l.job.attempt == 0 || l.job.waitingForRetry)
  }

  function DoBegin(l: Live, disk: Disk, begin: BeginAnswers, body: string, status: int): (Live, Disk) {
    var (o, disk') := BeginAttempt(l.job, disk, begin);
    (Log(l, o).(wire := Wire(body, body, status, false, false, false, false)), disk')
  }

  /** Once body bytes have come, no further status line comes and the status stays. */
  predicate CanHeaderLine(l: Live, line: string, status: int) {
    && l.job.attached
    && (IsStatusLine(line) ==> !l.wire.bodyStarted)
    && (!IsStatusLine(line) ==> l.wire.statusSeen)
    && (l.wire.bodyStarted ==> status == l.wire.status)
  }

  function DoHeaderLine(l: Live, line: string, status: int): Live {
    Log(l, OnHeaderLine(l.job, line, status)).(
      wire := if IsStatusLine(line) then l.wire.(statusSeen := true, headersDone := false)
              else if Trim(line) == "" && status == l.wire.status then l.wire.(headersDone := true)
              else l.wire,
      statusLines := l.statusLines + (if IsStatusLine(line) then 1 else 0))
  }

  /** Body bytes come after the headers, never while paused, and never after a refused write. */
  predicate CanWrite(l: Live, n: nat, io: WriteAnswers) {
    && l.job.attached && l.wire.headersDone && !l.job.stream.paused && !l.wire.aborted
    && 0 < n <= |l.wire.remaining| && n <= l.maxWrite && io.written <= n
  }

  function DoWrite(l: Live, disk: Disk, n: nat, io: WriteAnswers): (Live, Disk)
    requires CanWrite(l, n, io)
  {
    var data := l.wire.remaining[..n];
    var (o, disk', r) := OnWrite(l.job, disk, data, l.wire.status, io);
    var took := r == Wrote(n);
    (Log(l, o).(
       wire := l.wire.(bodyStarted := true, aborted := r.Wrote? && !took,
                       remaining := if took then l.wire.remaining[n..] else l.wire.remaining),
       accepted := if took && SinkFor(l.job.spec, l.wire.status) == StreamSink then l.accepted + data
                   else l.accepted), disk')
  }

  function DoTick(l: Live, now: int, dltotal: int, dlnow: int, ultotal: int, ulnow: int): Live {
    Log(l, PostProgress(l.job, now, dltotal, dlnow, ultotal, ulnow))
  }

  /** Credit comes only for bytes that were posted; the two-thread machine discharges this. */
  predicate CanConsume(l: Live, bytes: int) {
    !l.job.finished && l.job.attempt > 0 && 0 <= bytes <= StreamedTotal(l) - l.credited
  }

  function DoConsume(l: Live, bytes: int): Live {
    l.(job := OnStreamConsumed(l.job, bytes), credited := l.credited + bytes)
  }

  /** A transfer that ends well has delivered its whole body; a refused write ends it with an error. */
  predicate CanFinish(l: Live, d: DoneAnswers) {
    && l.job.attached
    && JitterInRange(l.job.attempt, d.jitter)
    && (l.wire.aborted ==> d.code == WriteError)
    && (l.wire.bodyStarted ==> d.status == l.wire.status)
    && (d.code == CurlOk ==> l.wire.remaining == "" && !l.job.stream.paused && d.status == l.wire.status)
  }

  function DoFinish(l: Live, disk: Disk, d: DoneAnswers): (Live, Disk) {
    var (o, disk') := OnAttemptDone(l.job, disk, d);
    (Log(l, o).(delays := if o.job.waitingForRetry
                          then l.delays + [RetryDelay(l.job.response.headers, l.job.attempt, d.jitter)]
                          else l.delays), disk')
  }

  predicate CanCancel(l: Live) {
    !l.job.finished && l.job.attempt > 0
  }

  function DoCancel(l: Live): Live {
    Log(l, Cancel(l.job))
  }

  predicate Enabled(l: Live, a: Label) {
    match a
    case Begin(_, _, _) => CanBegin(l)
    case HeaderLine(line, status) => CanHeaderLine(l, line, status)
    case Write(n, io) => CanWrite(l, n, io)
    case Tick(_, _, _, _, _) => l.job.attached
    case Consumed(bytes) => CanConsume(l, bytes)
    case Done(d) => CanFinish(l, d)
    case CancelNow => CanCancel(l)
  }

  function Step(l: Live, disk: Disk, a: Label): (Live, Disk)
    requires Enabled(l, a)
  {
    match a
    case Begin(begin, body, status) => DoBegin(l, disk, begin, body, status)
    case HeaderLine(line, status) => (DoHeaderLine(l, line, status), disk)
    case Write(n, io) => DoWrite(l, disk, n, io)
    case Tick(now, dltotal, dlnow, ultotal, ulnow) => (DoTick(l, now, dltotal, dlnow, ultotal, ulnow), disk)
    case Consumed(bytes) => (DoConsume(l, bytes), disk)
    case Done(d) => DoFinish(l, disk, d)
    case CancelNow => (DoCancel(l), disk)
  }

  /** A run of one job: its steps, and the job and the disk between them. */
  ghost predicate LiveRun(lives: seq<Live>, disks: seq<Disk>, steps: seq<Label>) {
    && |lives| == |disks| == |steps| + 1
    && lives[0] == Fresh(lives[0].job.spec, lives[0].maxWrite)
    && forall i :: 0 <= i < |steps| ==>
         Enabled(lives[i], steps[i]) && (lives[i + 1], disks[i + 1]) == Step(lives[i], disks[i], steps[i])
  }

  // ---------------------------------------------------------------- the invariant

  /** Delivered through OnData: no output file, and a data callback. */
  predicate Streaming(spec: RequestSpec) {
    spec.streamData && spec.outputPath == ""
  }

  /** A job that has begun is exactly one of attached, waiting for a retry, or finished. */
  ghost predicate Lifecycle(l: Live) {
    var j := l.job;
    && j.attempt >= 0
    && (j.attempt == 0 ==> !j.attached && !j.waitingForRetry && !j.finished && !j.easy)
    && (j.attempt > 0 ==> j.attached || j.waitingForRetry || j.finished)
    && !(j.attached && j.waitingForRetry) && !(j.attached && j.finished) && !(j.waitingForRetry && j.finished)
    && (j.attached ==> j.easy)
    && (j.waitingForRetry ==> !j.easy)
    && (j.cancelRequested ==> j.finished)
  }

  /** Every accepted stream byte is posted or buffered, once and in order. */
  ghost predicate Exact(l: Live) {
    var j := l.job;
    && (!Streaming(j.spec) ==> j.stream.buffer == "" && DataOf(l.history) == "" && l.accepted == "")
    && DataOf(l.history) + j.stream.buffer == l.accepted
    && l.accepted <= l.wire.body
    && (!j.attached && !j.finished ==> l.accepted == "")
    && (j.attached && !IsSuccess(l.wire.status) ==> l.accepted == "")
    && (j.attached && Streaming(j.spec) && IsSuccess(l.wire.status) ==>
          && l.accepted + l.wire.remaining == l.wire.body
          && j.response.bodyLength == |l.accepted| && (l.accepted != "" ==> l.wire.bodyStarted))
    && (j.finished && Streaming(j.spec) && l.history != [] && l.history[|l.history| - 1].Complete?
          && l.history[|l.history| - 1].status == Ok ==>
          DataOf(l.history) == l.wire.body && l.accepted == l.wire.body)
  }

  /** The credit counter is exactly what was posted and not yet credited back. */
  ghost predicate Credit(l: Live) {
    var j := l.job;
    && 0 <= l.credited <= StreamedTotal(l)
    && j.stream.pending == StreamedTotal(l) - l.credited
    && (j.stream.paused && !j.finished ==> j.attached && j.stream.pending >= STREAM_LOW_WATER)
  }

  function Chunk(l: Live): nat {
    SizeT(l.job.spec.config.chunkSize)
  }

  /** Memory held for the main thread stays below high water plus one chunk plus one write. */
  ghost predicate Bounded(l: Live) {
    var j := l.job;
    && 0 <= j.stream.pending
    && (|j.stream.buffer| < Chunk(l) || j.stream.buffer == "")
    && (j.stream.pending >= STREAM_HIGH_WATER ==> j.stream.buffer == "")
    && j.stream.pending + |j.stream.buffer| < STREAM_HIGH_WATER + Chunk(l) + l.maxWrite
  }

  /** What the posted events of one job look like: all carry its id; the word is
      (Progress|Headers)* (Progress|Data)* Complete?, with Complete exactly when finished;
      and data is coalesced, so only the last Data event of a finished job can be short. */
  ghost predicate WellFormed(h: seq<Event>, id: int, finished: bool, chunk: nat, maxWrite: nat) {
    && (forall i :: 0 <= i < |h| ==> h[i].id == id)
    && (forall i :: 0 <= i < |h| - 1 ==> !h[i].Complete?)
    && (finished <==> h != [] && h[|h| - 1].Complete?)
    && (forall i :: 0 <= i < |h| && h[i].Headers? ==> DataOf(h[..i]) == "")
    && (forall i :: 0 <= i < |h| && h[i].Data? ==>
          && 0 < |h[i].body| < Max(1, chunk) + maxWrite
          && (|h[i].body| >= chunk || (finished && i == |h| - 2)))
  }

  ghost predicate Grammar(l: Live) {
    WellFormed(l.history, l.job.spec.id, l.job.finished, Chunk(l), l.maxWrite)
  }

  /** At most one Headers event per status line, and none once the body has started. */
  ghost predicate HeadersOnce(l: Live) {
    var j := l.job;
    && CountHeaders(l.history)
       + (if j.attached && l.wire.statusSeen && !j.response.headersPosted then 1 else 0) <= l.statusLines
    && (j.attached && l.wire.bodyStarted ==> l.wire.headersDone)
    && (j.attached && l.wire.headersDone ==> l.wire.statusSeen)
    && (j.attached && l.wire.headersDone && IsSuccess(l.wire.status) && j.spec.wantHeaders ==> j.response.headersPosted)
  }

  /** One delay per retry, at most maxRetries of them. */
  ghost predicate Retries(l: Live) {
    var j := l.job;
    && (!j.finished && j.attempt > 0 ==> |l.delays| == j.attempt - 1 + (if j.waitingForRetry then 1 else 0))
    && (j.attempt > 0 ==> |l.delays| <= j.attempt && j.attempt <= |l.delays| + 1)
    && (j.attempt == 0 ==> l.delays == [])
    && |l.delays| <= Max(0, j.spec.config.maxRetries)
    && (forall i :: 0 <= i < |l.delays| ==> 0 <= l.delays[i] <= RETRY_AFTER_CAP_MS)
  }

  ghost predicate LiveInv(l: Live) {
    && Lifecycle(l) && Exact(l) && Credit(l) && Bounded(l) && Grammar(l) && HeadersOnce(l)
    && Retries(l)
  }

  lemma FreshJobHolds(spec: RequestSpec, maxWrite: nat)
    ensures LiveInv(Fresh(spec, maxWrite))
  {
  }

  // ---------------------------------------------------------------- posting keeps the word well formed

  lemma Appended(h: seq<Event>, e: Event)
    ensures DataOf(h + [e]) == DataOf(h) + BodyOf(e)
    ensures CountHeaders(h + [e]) == CountHeaders(h) + (if e.Headers? then 1 else 0)
    ensures forall i :: 0 <= i <= |h| ==> (h + [e])[..i] == h[..i]
    ensures h[..|h|] == h && h + [] == h
  {
    Snoc(h, e);
  }

  lemma PostKeeps(h: seq<Event>, e: Event, id: int, chunk: nat, maxWrite: nat)
    requires WellFormed(h, id, false, chunk, maxWrite) && e.id == id
    requires e.Headers? ==> DataOf(h) == ""
    requires e.Data? ==> chunk <= |e.body| && 0 < |e.body| < Max(1, chunk) + maxWrite
    ensures WellFormed(h + [e], id, e.Complete?, chunk, maxWrite)
    ensures DataOf(h + [e]) == DataOf(h) + BodyOf(e)
    ensures CountHeaders(h + [e]) == CountHeaders(h) + (if e.Headers? then 1 else 0)
  {
    Appended(h, e);
    hide DataOf, CountHeaders, BodyOf;
    var h' := h + [e];
    forall i | 0 <= i < |h'| && h'[i].Headers? ensures DataOf(h'[..i]) == "" {
      assert h'[..i] == h[..i];
    }
  }

  /** The final flush: a possibly short Data event, then Complete. */
  lemma FinalPostsKeep(h: seq<Event>, d: Event, c: Event, id: int, chunk: nat, maxWrite: nat)
    requires WellFormed(h, id, false, chunk, maxWrite) && d.id == c.id == id
    requires d.Data? && c.Complete? && 0 < |d.body| < Max(1, chunk) + maxWrite
    ensures WellFormed(h + [d, c], id, true, chunk, maxWrite)
    ensures DataOf(h + [d, c]) == DataOf(h) + d.body
    ensures CountHeaders(h + [d, c]) == CountHeaders(h)
  {
    Appended(h, d);
    Appended(h + [d], c);
    hide DataOf, CountHeaders;
    var h' := h + [d, c];
    assert h' == (h + [d]) + [c];
    forall i | 0 <= i < |h'| && h'[i].Headers? ensures DataOf(h'[..i]) == "" {
      assert h'[..i] == h[..i];
    }
  }

  lemma BeginAttachedKeeps(l: Live, disk: Disk, begin: BeginAnswers, body: string, status: int)
    requires LiveInv(l) && CanBegin(l) && BeginFailure(l.job, begin).None?
    ensures LiveInv(DoBegin(l, disk, begin, body, status).0)
  {
    hide WellFormed, DataOf, CountHeaders, BeginAttempt, BeginFailure;
    BeginShape(l.job, disk, begin);
    assert l.history + [] == l.history;
  }

  lemma BeginFailedKeeps(l: Live, disk: Disk, begin: BeginAnswers, body: string, status: int)
    requires LiveInv(l) && CanBegin(l) && BeginFailure(l.job, begin).Some?
    ensures LiveInv(DoBegin(l, disk, begin, body, status).0)
  {
    hide WellFormed, DataOf, CountHeaders, BeginAttempt, BeginFailure;
    BeginShape(l.job, disk, begin);
    FailureIsNoSuccess(l.job, begin);
    var e := Complete(l.job.spec.id, BeginFailure(l.job, begin).value, 0, [], "", 0);
    PostKeeps(l.history, e, l.job.spec.id, Chunk(l), l.maxWrite);
    assert DataOf(l.history) == "" && l.accepted == "";
    var l' := DoBegin(l, disk, begin, body, status).0;
    assert l'.history == l.history + [e];
    assert Lifecycle(l') && Credit(l') && Bounded(l') && Grammar(l') && HeadersOnce(l') && Retries(l');
  }

  lemma FailureIsNoSuccess(j: Job, begin: BeginAnswers)
    ensures BeginFailure(j, begin) != Some(Ok)
  {
  }

  lemma BeginKeeps(l: Live, disk: Disk, begin: BeginAnswers, body: string, status: int)
    requires LiveInv(l) && CanBegin(l)
    ensures LiveInv(DoBegin(l, disk, begin, body, status).0)
  {
    hide LiveInv, DoBegin, BeginFailure;
    if BeginFailure(l.job, begin).None? {
      BeginAttachedKeeps(l, disk, begin, body, status);
    } else {
      BeginFailedKeeps(l, disk, begin, body, status);
    }
  }

  lemma BlankLineKeeps(l: Live, line: string, status: int)
    requires LiveInv(l) && CanHeaderLine(l, line, status) && !IsStatusLine(line) && Trim(line) == ""
    ensures LiveInv(DoHeaderLine(l, line, status))
  {
    hide WellFormed, DataOf, CountHeaders, Trim, FindHeader;
    if PostsHeaders(l.job, status) {
      PostKeeps(l.history, Headers(l.job.spec.id, status, l.job.response.headers), l.job.spec.id, Chunk(l), l.maxWrite);
    } else {
      assert l.history + [] == l.history;
    }
  }

  lemma HeaderLineKeeps(l: Live, line: string, status: int)
    requires LiveInv(l) && CanHeaderLine(l, line, status)
    ensures LiveInv(DoHeaderLine(l, line, status))
  {
    hide WellFormed, DataOf, CountHeaders, Trim, HeaderOf, OnHeadersComplete;
    if !IsStatusLine(line) && Trim(line) == "" {
      BlankLineKeeps(l, line, status);
    } else {
      assert l.history + [] == l.history;
    }
  }

  lemma WriteStreamKeeps(l: Live, disk: Disk, n: nat, io: WriteAnswers)
    requires LiveInv(l) && CanWrite(l, n, io) && SinkFor(l.job.spec, l.wire.status) == StreamSink
    ensures LiveInv(DoWrite(l, disk, n, io).0)
  {
    assert l.history + [] == l.history;
    if l.job.stream.pending >= STREAM_HIGH_WATER {
      hide WellFormed, DataOf, CountHeaders;
    } else if |l.job.stream.buffer| + n < Chunk(l) {
      WriteBufferedKeeps(l, disk, n, io);
    } else {
      WriteFlushedKeeps(l, disk, n, io);
    }
  }

  lemma WriteBufferedKeeps(l: Live, disk: Disk, n: nat, io: WriteAnswers)
    requires LiveInv(l) && CanWrite(l, n, io) && SinkFor(l.job.spec, l.wire.status) == StreamSink
    requires l.job.stream.pending < STREAM_HIGH_WATER && |l.job.stream.buffer| + n < Chunk(l)
    ensures LiveInv(DoWrite(l, disk, n, io).0)
  {
    hide WellFormed, DataOf, CountHeaders;
    var data := l.wire.remaining[..n];
    var rest := l.wire.remaining[n..];
    assert l.wire.remaining == data + rest;
    Associate(l.accepted, data, rest);
    Associate(DataOf(l.history), l.job.stream.buffer, data);
    assert l.history + [] == l.history;
  }

  lemma WriteFlushedKeeps(l: Live, disk: Disk, n: nat, io: WriteAnswers)
    requires LiveInv(l) && CanWrite(l, n, io) && SinkFor(l.job.spec, l.wire.status) == StreamSink
    requires l.job.stream.pending < STREAM_HIGH_WATER && |l.job.stream.buffer| + n >= Chunk(l)
    ensures LiveInv(DoWrite(l, disk, n, io).0)
  {
    hide WellFormed, DataOf, CountHeaders;
    var data := l.wire.remaining[..n];
    var rest := l.wire.remaining[n..];
    assert l.wire.remaining == data + rest;
    Associate(l.accepted, data, rest);
    Associate(DataOf(l.history), l.job.stream.buffer, data);
    PostKeeps(l.history, Data(l.job.spec.id, l.job.stream.buffer + data), l.job.spec.id, Chunk(l), l.maxWrite);
  }

  lemma WriteKeeps(l: Live, disk: Disk, n: nat, io: WriteAnswers)
    requires LiveInv(l) && CanWrite(l, n, io)
    ensures LiveInv(DoWrite(l, disk, n, io).0)
  {
    hide WellFormed, DataOf, CountHeaders, WriteStream;
    if SinkFor(l.job.spec, l.wire.status) == StreamSink {
      WriteStreamKeeps(l, disk, n, io);
    } else {
      assert l.history + [] == l.history;
    }
  }

  lemma TickKeeps(l: Live, now: int, dltotal: int, dlnow: int, ultotal: int, ulnow: int)
    requires LiveInv(l) && l.job.attached
    ensures LiveInv(DoTick(l, now, dltotal, dlnow, ultotal, ulnow))
  {
    hide WellFormed, DataOf, CountHeaders;
    var o := PostProgress(l.job, now, dltotal, dlnow, ultotal, ulnow);
    if o.posts == [] {
      assert l.history + [] == l.history;
    } else {
      PostKeeps(l.history, o.posts[0], l.job.spec.id, Chunk(l), l.maxWrite);
    }
  }

  lemma ConsumeKeeps(l: Live, bytes: int)
    requires LiveInv(l) && CanConsume(l, bytes)
    ensures LiveInv(DoConsume(l, bytes))
  {
  }

  /** Ending with any status but a stream's Ok posts just Complete. */
  lemma EndKeeps(l: Live, status: int, verdict: RestStatus)
    requires LiveInv(l) && l.job.attached
    requires verdict == Ok ==> l.job.spec.outputPath != "" || !Streaming(l.job.spec)
    ensures LiveInv(Log(l, EndAttempt(AfterTransfer(l.job, status), verdict)))
    ensures !EndAttempt(AfterTransfer(l.job, status), verdict).job.waitingForRetry
  {
    hide WellFormed, DataOf, CountHeaders;
    var o := EndAttempt(AfterTransfer(l.job, status), verdict);
    assert o.posts == [o.posts[0]];
    PostKeeps(l.history, o.posts[0], l.job.spec.id, Chunk(l), l.maxWrite);
  }

  /** A stream's Ok first flushes the buffer, so everything accepted has been posted. */
  lemma StreamOkKeeps(l: Live, status: int)
    requires LiveInv(l) && l.job.attached && Streaming(l.job.spec)
    requires l.wire.remaining == "" && IsSuccess(l.wire.status)
    ensures LiveInv(Log(l, EndAttempt(AfterTransfer(l.job, status), Ok)))
    ensures !EndAttempt(AfterTransfer(l.job, status), Ok).job.waitingForRetry
  {
    hide WellFormed, DataOf, CountHeaders;
    var o := EndAttempt(AfterTransfer(l.job, status), Ok);
    assert l.accepted + "" == l.accepted && DataOf(l.history) + "" == DataOf(l.history);
    if l.job.stream.buffer == "" {
      assert o.posts == [o.posts[0]];
      PostKeeps(l.history, o.posts[0], l.job.spec.id, Chunk(l), l.maxWrite);
    } else {
      assert o.posts == [o.posts[0], o.posts[1]];
      FinalPostsKeep(l.history, o.posts[0], o.posts[1], l.job.spec.id, Chunk(l), l.maxWrite);
    }
  }

  lemma RetryKeeps(l: Live, d: DoneAnswers)
    requires LiveInv(l) && CanFinish(l, d)
    requires CanRetry(l.job)
    ensures LiveInv(l.(job := ScheduleRetry(AfterTransfer(l.job, d.status), d.now, d.jitter),
                       delays := l.delays + [RetryDelay(l.job.response.headers, l.job.attempt, d.jitter)]))
  {
    hide WellFormed, DataOf, CountHeaders, FindHeader, ParseRetryAfterMs;
    DelayInRange(l.job.response.headers, l.job.attempt, d.jitter);
  }

  lemma FinishKeeps(l: Live, disk: Disk, d: DoneAnswers)
    requires LiveInv(l) && CanFinish(l, d)
    ensures LiveInv(DoFinish(l, disk, d).0)
  {
    hide LiveInv, EndAttempt, AfterTransfer;
    match DoneVerdict(l.job, disk, d) {
      case Retry =>
        RetryKeeps(l, d);
        assert l.history + [] == l.history;
      case End(status) =>
        if status == Ok && Streaming(l.job.spec) {
          StreamOkKeeps(l, d.status);
        } else {
          EndKeeps(l, d.status, status);
        }
    }
  }

  lemma CancelKeeps(l: Live)
    requires LiveInv(l) && CanCancel(l)
    ensures LiveInv(DoCancel(l))
  {
    hide WellFormed, DataOf, CountHeaders;
    PostKeeps(l.history, Cancel(l.job).posts[0], l.job.spec.id, Chunk(l), l.maxWrite);
  }

  /** Every step of a job and its transfer keeps the invariant. */
  lemma StepKeeps(l: Live, disk: Disk, a: Label)
    requires LiveInv(l) && Enabled(l, a)
    ensures LiveInv(Step(l, disk, a).0)
  {
    match a
    case Begin(begin, body, status) => BeginKeeps(l, disk, begin, body, status);
    case HeaderLine(line, status) => HeaderLineKeeps(l, line, status);
    case Write(n, io) => WriteKeeps(l, disk, n, io);
    case Tick(now, dltotal, dlnow, ultotal, ulnow) => TickKeeps(l, now, dltotal, dlnow, ultotal, ulnow);
    case Consumed(bytes) => ConsumeKeeps(l, bytes);
    case Done(d) => FinishKeeps(l, disk, d);
    case CancelNow => CancelKeeps(l);
  }

  /** So it holds in every state of every run of one job, whose request never changes. */
  lemma {:induction false} LiveRunKeeps(lives: seq<Live>, disks: seq<Disk>, steps: seq<Label>, i: nat)
    requires LiveRun(lives, disks, steps) && i <= |steps|
    ensures LiveInv(lives[i]) && lives[i].job.spec == lives[0].job.spec
  {
    hide LiveInv, Step, Enabled;
    if i == 0 {
      FreshJobHolds(lives[0].job.spec, lives[0].maxWrite);
    } else {
      LiveRunKeeps(lives, disks, steps, i - 1);
      StepKeeps(lives[i - 1], disks[i - 1], steps[i - 1]);
      StepKeepsSpec(lives[i - 1], disks[i - 1], steps[i - 1]);
    }
  }

  lemma StepKeepsSpec(l: Live, disk: Disk, a: Label)
    requires Enabled(l, a) && LiveInv(l)
    ensures Step(l, disk, a).0.job.spec == l.job.spec
  {
    hide BeginAttempt, OnHeaderLine, OnWrite, PostProgress, OnStreamConsumed, OnAttemptDone, Cancel, WellFormed, DataOf;
    match a
    case Begin(begin, _, _) => BeginShape(l.job, disk, begin);
    case HeaderLine(line, status) => HeaderLineShape(l.job, line, status);
    case Write(n, io) => WriteShape(l.job, disk, l.wire.remaining[..n], l.wire.status, io);
    case Tick(now, dltotal, dlnow, ultotal, ulnow) => TickShape(l.job, now, dltotal, dlnow, ultotal, ulnow);
    case Consumed(bytes) => ConsumedShape(l.job, bytes);
    case Done(d) => DoneShape(l.job, disk, d);
    case CancelNow => CancelShape(l.job);
  }

  lemma DelayInRange(headers: HeaderList, attempt: int, jitter: int)
    requires JitterInRange(attempt, jitter)
    ensures 0 <= RetryDelay(headers, attempt, jitter) <= RETRY_AFTER_CAP_MS
  {
  }
}
