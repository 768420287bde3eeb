/** What each kind of answer does to a request, written out case by case with the statuses, codes and
    sizes of the source (src/job.cpp:141-189, 480-541, 630-678, 722-750, 805-986). */
module Outcomes {
  import opened Maybe
  import opened Text
  import opened Events
  import opened JobSpec
  import opened Live

  // ---------------------------------------------------------------- pause and resume

  /** Bytes handed over and not yet credited. */
  function Uncredited(l: Live): int {
    |DataOf(l.history)| - l.credited
  }

  /** A credit resumes the transfer exactly when it takes what is uncredited below 1 MiB. */
  lemma ResumedIff(l: Live, bytes: nat)
    requires LiveInv(l) && CanConsume(l, bytes)
    ensures var l' := DoConsume(l, bytes);
            && (l'.job.stream.paused <==> l.job.stream.paused && Uncredited(l) - bytes >= 1048576)
            && l'.job == l.job.(stream := l'.job.stream) && l'.job.stream.buffer == l.job.stream.buffer
            && l'.job.stream.pending == Uncredited(l) - bytes == Uncredited(l')
  {
    hide DataOf, WellFormed;
  }

  /** The sink of a write: a 2xx body of a request with a data callback and without an output file. */
  predicate ToStream(l: Live) {
    l.job.spec.streamData && l.job.spec.outputPath == "" && 200 <= l.wire.status <= 299
  }

  /** A stream write is answered with a pause exactly when 4 MiB or more are uncredited. Then nothing is
      taken; otherwise all of it is. */
  lemma PausedIff(l: Live, disk: Disk, n: nat, io: WriteAnswers)
    requires LiveInv(l) && CanWrite(l, n, io) && ToStream(l)
    ensures var (l', disk') := DoWrite(l, disk, n, io);
            && disk' == disk
            && (l'.job.stream.paused <==> Uncredited(l) >= 4194304)
            && (Uncredited(l) >= 4194304 ==>
                  && l'.history == l.history && l'.accepted == l.accepted && l'.wire.remaining == l.wire.remaining
                  && l'.job == l.job.(stream := l.job.stream.(paused := true)))
            && (Uncredited(l) < 4194304 ==>
                  && l'.accepted == l.accepted + l.wire.remaining[..n] && l'.wire.remaining == l.wire.remaining[n..]
                  && l'.job.response.bodyLength == l.job.response.bodyLength + n)
  {
    hide DataOf, WellFormed;
    assert l.history + [] == l.history;
  }

  /** In any run a transfer that is paused stays paused until a credit takes what is uncredited below 1 MiB,
      or it ends. */
  lemma PausedUntilCredited(lives: seq<Live>, disks: seq<Disk>, steps: seq<Label>, i: nat)
    requires LiveRun(lives, disks, steps) && i < |steps|
    requires lives[i].job.attached && lives[i].job.stream.paused
    ensures lives[i + 1].job.attached && !lives[i + 1].job.stream.paused ==>
              steps[i].Consumed? && Uncredited(lives[i + 1]) < 1048576
    ensures steps[i].Consumed? ==>
              (lives[i + 1].job.stream.paused <==> Uncredited(lives[i + 1]) >= 1048576) && lives[i + 1].job.attached
  {
    hide LiveInv, Step, Enabled, Uncredited;
    LiveRunKeeps(lives, disks, steps, i);
    PausedStep(lives[i], disks[i], steps[i]);
  }

  lemma PausedStep(l: Live, disk: Disk, a: Label)
    requires LiveInv(l) && Enabled(l, a) && l.job.attached && l.job.stream.paused
    ensures var l' := Step(l, disk, a).0;
            && (l'.job.attached && !l'.job.stream.paused ==> a.Consumed? && Uncredited(l') < 1048576)
            && (a.Consumed? ==> (l'.job.stream.paused <==> Uncredited(l') >= 1048576) && l'.job.attached)
  {
    match a {
      case Begin(_, _, _) => AttachedCannotBegin(l);
      case HeaderLine(line, status) => HeaderLineShape(l.job, line, status);
      case Write(_, _) =>
      case Tick(now, dltotal, dlnow, ultotal, ulnow) => TickShape(l.job, now, dltotal, dlnow, ultotal, ulnow);
      case Consumed(bytes) => ResumedIff(l, bytes);
      case Done(d) => DoneReleases(l, disk, d);
      case CancelNow => CancelReleases(l);
    }
    hide LiveInv, BeginAttempt, OnHeaderLine, PostProgress, OnStreamConsumed, OnAttemptDone, Cancel, DataOf, OnWrite;
  }

  lemma AttachedCannotBegin(l: Live)
    requires LiveInv(l) && l.job.attached
    ensures !CanBegin(l)
  {
  }

  lemma DoneReleases(l: Live, disk: Disk, d: DoneAnswers)
    requires LiveInv(l) && CanFinish(l, d)
    ensures !DoFinish(l, disk, d).0.job.attached
  {
    assert l.job.attached && l.job.easy;
    hide LiveInv, DoneVerdict, DiskAfterDone, RetryDelay;
  }

  lemma CancelReleases(l: Live)
    requires LiveInv(l) && CanCancel(l)
    ensures !DoCancel(l).job.attached
  {
    hide WellFormed, DataOf;
  }

  // ---------------------------------------------------------------- the end of an attempt

  /** What the plugin is told when an attempt ends its request: one Complete, last, with the final status
      code, the headers and the body kept, and how many body bytes there were. Nothing is held any more. */
  predicate Ends(l: Live, l': Live, status: RestStatus, httpStatus: int) {
    && l'.job.finished && !l'.job.attached && !l'.job.waitingForRetry && l'.delays == l.delays
    && !l'.job.easy && !l'.job.output.open && l'.job.response.body == ""
    && var r := l.job.response;
       && l'.history != []
       && l'.history[|l'.history| - 1]
          == Complete(l.job.spec.id, status, httpStatus, r.headers, r.body, r.bodyLength)
  }

  /** The request is not over: nothing is posted, nothing is attached, and it will be sent again. */
  predicate Waits(l: Live, l': Live, d: DoneAnswers) {
    && !l'.job.finished && !l'.job.attached && l'.job.waitingForRetry && l'.history == l.history
    && !l'.job.easy && !l'.job.output.open
    && l'.job.attempt == l.job.attempt && |l'.delays| == |l.delays| + 1
    && l'.job.retryAt == d.now + l'.delays[|l.delays|]
    && l'.delays[|l.delays|] == RetryDelay(l.job.response.headers, l.job.attempt, d.jitter)
  }

  /** Retries are left, and sending again could not repeat bytes the plugin has had. */
  predicate MaySendAgain(l: Live) {
    l.job.attempt <= l.job.spec.config.maxRetries && !(l.job.spec.streamData && l.job.response.bodyLength > 0)
  }

  /** What a broken transfer is reported as when it is not tried again. */
  function StatusOf(code: TransferCode, tooLarge: bool): RestStatus {
    match code
    case AbortedByCallback => Cancelled
    case WriteError => if tooLarge then TooLarge else IoError
    case ReadError => IoError
    case TimedOut => Timeout
    case BadCaFile | PeerVerification | TooManyRedirects | MalformedUrl | UnsupportedProtocol => NetworkError
    case OtherFailure | CurlOk => NetworkError
  }

  lemma NotCancelled(l: Live)
    requires LiveInv(l) && l.job.attached
    ensures !l.job.cancelRequested && !l.job.finished && l.job.easy && l.job.attempt > 0 && !l.job.waitingForRetry
  {
  }

  lemma VerdictOfRetry(l: Live, disk: Disk, d: DoneAnswers)
    requires LiveInv(l) && CanFinish(l, d) && DoneVerdict(l.job, disk, d) == Retry
    ensures var (l', disk') := DoFinish(l, disk, d);
            l'.job.waitingForRetry && Waits(l, l', d) && disk' == disk
  {
    NotCancelled(l);
    hide LiveInv, RetryDelay, DoneVerdict;
    assert l.history + [] == l.history;
  }

  lemma VerdictOfEnd(l: Live, disk: Disk, d: DoneAnswers, status: RestStatus)
    requires LiveInv(l) && CanFinish(l, d) && DoneVerdict(l.job, disk, d) == End(status)
    requires status != Ok || l.job.spec.outputPath != ""
    ensures var (l', disk') := DoFinish(l, disk, d);
            && !l'.job.waitingForRetry && Ends(l, l', status, d.status)
            && (status !in {Ok, HttpError} ==> disk' == disk)
  {
    NotCancelled(l);
    hide LiveInv, RetryDelay, DoneVerdict;
  }

  lemma VerdictOfStreamEnd(l: Live, disk: Disk, d: DoneAnswers)
    requires LiveInv(l) && CanFinish(l, d) && DoneVerdict(l.job, disk, d) == End(Ok) && l.job.spec.outputPath == ""
    ensures var (l', disk') := DoFinish(l, disk, d);
            && Ends(l, l', Ok, d.status) && disk' == disk
            && DataOf(l'.history) == DataOf(l.history) + l.job.stream.buffer
  {
    hide LiveInv, RetryDelay, DoneVerdict, DataOf, EndAttempt, AfterTransfer, OnAttemptDone;
    NotCancelled(l);
    FlushedShape(l.job, d.status);
    var e := CompleteEvent(AfterTransfer(l.job, d.status), Ok);
    FlushedHistory(l.history, e, Data(l.job.spec.id, l.job.stream.buffer));
    EndsWith(l.job, disk, d, Ok);
    AfterTransferFields(l.job, d.status);
  }

  lemma EndsWith(j: Job, disk: Disk, d: DoneAnswers, status: RestStatus)
    requires DoneVerdict(j, disk, d) == End(status)
    ensures OnAttemptDone(j, disk, d).0 == EndAttempt(AfterTransfer(j, d.status), status)
    ensures status == Ok && j.spec.outputPath == "" ==> OnAttemptDone(j, disk, d).1 == disk
  {
    hide DoneVerdict, EndAttempt, AfterTransfer;
  }

  lemma FlushedShape(j: Job, status: int)
    requires !j.finished && j.easy && j.spec.outputPath == ""
    ensures var r := AfterTransfer(j, status);
            var o := EndAttempt(r, Ok);
            var e := CompleteEvent(r, Ok);
            && o.job.finished && !o.job.attached && !o.job.waitingForRetry
            && !o.job.easy && !o.job.output.open && o.job.response.body == ""
            && o.posts == (if j.stream.buffer == "" then [e] else [Data(j.spec.id, j.stream.buffer), e])
  {
    assert [] + [CompleteEvent(AfterTransfer(j, status), Ok)] == [CompleteEvent(AfterTransfer(j, status), Ok)];
  }

  lemma FlushedHistory(h: seq<Event>, e: Event, d: Event)
    requires e.Complete? && d.Data?
    ensures DataOf(h + [e]) == DataOf(h) == DataOf(h) + ""
    ensures DataOf(h + [d, e]) == DataOf(h) + d.body
  {
    hide DataOf, CountData, CountHeaders;
    Snoc(h, e);
    Snoc(h, d);
    Snoc(h + [d], e);
    assert h + [d, e] == h + [d] + [e];
  }

  /** Every way a transfer can break, and what comes of it. */
  lemma TransportOutcome(l: Live, disk: Disk, d: DoneAnswers)
    requires LiveInv(l) && CanFinish(l, d) && d.code != CurlOk
    ensures var (l', disk') := DoFinish(l, disk, d);
            && disk' == disk
            && (l'.job.waitingForRetry <==> d.code in {TimedOut, OtherFailure} && MaySendAgain(l))
            && (l'.job.waitingForRetry ==> Waits(l, l', d))
            && (!l'.job.waitingForRetry ==> Ends(l, l', StatusOf(d.code, l.job.response.tooLarge), d.status))
  {
    hide LiveInv, DoFinish, Ends, Waits, DoneVerdict, StatusOf, MaySendAgain;
    NotCancelled(l);
    TransportMeaning(l, disk, d);
    if DoneVerdict(l.job, disk, d) == Retry {
      VerdictOfRetry(l, disk, d);
    } else {
      VerdictOfEnd(l, disk, d, StatusOf(d.code, l.job.response.tooLarge));
    }
  }

  lemma TransportMeaning(l: Live, disk: Disk, d: DoneAnswers)
    requires !l.job.cancelRequested && d.code != CurlOk
    ensures StatusOf(d.code, l.job.response.tooLarge) !in {Ok, HttpError}
    ensures DoneVerdict(l.job, disk, d) == if d.code in {TimedOut, OtherFailure} && MaySendAgain(l) then Retry
                                           else End(StatusOf(d.code, l.job.response.tooLarge))
  {
  }

  /** What a response that is not 2xx comes to. Of the client errors the part file is deleted; after any
      other final status it stays for a later resume. */
  lemma ErrorResponseOutcome(l: Live, disk: Disk, d: DoneAnswers)
    requires LiveInv(l) && CanFinish(l, d) && d.code == CurlOk && !(200 <= d.status <= 299)
    ensures var (l', disk') := DoFinish(l, disk, d);
            && (l'.job.waitingForRetry <==> d.status in {429, 502, 503, 504} && MaySendAgain(l))
            && (l'.job.waitingForRetry ==> Waits(l, l', d) && disk' == disk)
            && (!l'.job.waitingForRetry ==>
                  && Ends(l, l', HttpError, d.status)
                  && disk' == (if 400 <= d.status <= 499 && l.job.output.partPath != ""
                               then map p | p in disk && p != l.job.output.partPath :: disk[p] else disk))
  {
    NotCancelled(l);
    var part := l.job.output.partPath;
    assert disk - {part} == map p | p in disk && p != part :: disk[p];
    if DoneVerdict(l.job, disk, d) == Retry {
      VerdictOfRetry(l, disk, d);
    } else {
      VerdictOfEnd(l, disk, d, HttpError);
    }
    hide LiveInv, OnAttemptDone, Ends, Waits;
    DiskOf(l, disk, d);
  }

  lemma DiskOf(l: Live, disk: Disk, d: DoneAnswers)
    ensures DoFinish(l, disk, d).1 == DiskAfterDone(l.job, disk, DoneVerdict(l.job, disk, d), d.status)
  {
    hide DiskAfterDone, DoneVerdict, RetryDelay;
  }

  /** What a 2xx response comes to. Without an output file the request ends Ok, what was buffered going first;
      with one it ends Ok exactly when the part file could be renamed onto it. */
  lemma SuccessOutcome(l: Live, disk: Disk, d: DoneAnswers)
    requires LiveInv(l) && CanFinish(l, d) && d.code == CurlOk && 200 <= d.status <= 299
    ensures var (l', disk') := DoFinish(l, disk, d);
            var (out, part) := (l.job.spec.outputPath, l.job.output.partPath);
            var renamed := d.renameOk && part in disk;
            && Ends(l, l', if out == "" || renamed then Ok else IoError, d.status)
            && (out == "" ==> disk' == disk && DataOf(l'.history) == DataOf(l.history) + l.job.stream.buffer)
            && (out != "" && !renamed ==> disk' == disk)
            && (out != "" && renamed ==> disk' == (disk - {part})[out := disk[part]])
  {
    NotCancelled(l);
    if l.job.spec.outputPath == "" {
      VerdictOfStreamEnd(l, disk, d);
    } else {
      VerdictOfEnd(l, disk, d, DoneVerdict(l.job, disk, d).status);
    }
    hide LiveInv, OnAttemptDone, Ends, DataOf;
    DiskOf(l, disk, d);
  }

  /** A cancel ends a request that has begun at once, with what there was. */
  lemma CancelOutcome(l: Live)
    requires LiveInv(l) && CanCancel(l)
    ensures Ends(l, DoCancel(l), Cancelled, l.job.response.httpStatus) && DoCancel(l).job.cancelRequested
  {
    CancelReleases(l);
    hide WellFormed, DataOf, LiveInv;
  }

  /** An attempt that cannot start ends the request; otherwise it is attached and nothing is posted. */
  lemma BeginOutcome(l: Live, disk: Disk, a: BeginAnswers, body: string, status: int)
    requires LiveInv(l) && CanBegin(l)
    ensures var l' := DoBegin(l, disk, a, body, status).0;
            var fails := !a.initOk || !a.uploadOk || (l.job.spec.outputPath != "" && !a.outputOk) || !a.addOk;
            && l'.job.attempt == l.job.attempt + 1 && l'.job.attached == !fails && l'.job.finished == fails
            && (!fails ==> l'.history == l.history)
            && (fails ==>
                  var files := a.initOk && (!a.uploadOk || (l.job.spec.outputPath != "" && !a.outputOk));
                  var verdict := if files then IoError else NetworkError;
                  l'.history == l.history + [Complete(l.job.spec.id, verdict, 0, [], "", 0)])
  {
    IdleJob(l);
    BeginShape(l.job, disk, a);
    hide LiveInv, BeginAttempt;
    assert l.history + [] == l.history;
  }

  lemma IdleJob(l: Live)
    requires LiveInv(l) && CanBegin(l)
    ensures !l.job.finished && !l.job.attached && !l.job.cancelRequested
  {
  }

  /** The bytes of a write go to memory, to the part file, or to the stream. */
  lemma SinkMeaning(spec: RequestSpec, status: int)
    ensures SinkFor(spec, status)
         == if !(200 <= status <= 299) then MemorySink
            else if spec.outputPath != "" then FileSink
            else if spec.streamData then StreamSink
            else MemorySink
  {
  }

  // ---------------------------------------------------------------- progress

  /** When a progress call posts, and what the four numbers of the event are: the download counted from the
      start of the file, the upload as it is. */
  lemma ProgressMeaning(l: Live, now: int, dltotal: int, dlnow: int, ultotal: int, ulnow: int)
    requires l.job.attached
    ensures var h := DoTick(l, now, dltotal, dlnow, ultotal, ulnow).history;
            var start := l.job.output.resumeOffset;
            var completed := (dltotal > 0 && dlnow >= dltotal) || (ultotal > 0 && ulnow >= ultotal);
            var due := completed || now - l.job.response.lastProgress >= l.job.spec.config.progressInterval;
            var e := Progress(l.job.spec.id, start + dlnow, if dltotal > 0 then start + dltotal else 0, ulnow, ultotal);
            h == if (dlnow > 0 || ulnow > 0) && due then l.history + [e] else l.history
  {
    assert l.history + [] == l.history;
  }

  // ---------------------------------------------------------------- header blocks

  /** A name and a value that survive being sent on a line. */
  predicate Sendable(h: (string, string)) {
    && h.0 != "" && h.0[0] !in " \t\r\n" && h.0[|h.0| - 1] !in " \t\r\n"
    && (forall i :: 0 <= i < |h.0| ==> h.0[i] != ':')
    && (h.1 != "" ==> h.1[0] !in " \t\r\n" && h.1[|h.1| - 1] !in " \t\r\n")
    && !("HTTP/" <= h.0 + ":")
  }

  function LineOf(h: (string, string)): string {
    h.0 + ": " + h.1 + "\r\n"
  }

  predicate Blanks(s: string) {
    forall c :: c in s ==> c in " \t\r\n"
  }

  /** A header line may carry blanks around the name and around the value; what is kept is without them. */
  lemma PaddedLineIsRead(j: Job, a: string, h: (string, string), b: string, c: string, d: string, status: int)
    requires Sendable(h) && Blanks(a) && Blanks(b) && Blanks(c) && Blanks(d)
    requires !("HTTP/" <= a + (h.0 + b + ":" + (c + h.1)) + d)
    ensures OnHeaderLine(j, a + (h.0 + b + ":" + (c + h.1)) + d, status)
         == Out(j.(response := j.response.(headers := j.response.headers + [h])), [])
  {
    var text := h.0 + b + ":" + (c + h.1);
    var line := a + text + d;
    if h.1 == "" {
      assert line == a + (h.0 + b + ":") + (c + d);
      TrimGivesBack(a, h.0 + b + ":", c + d);
      CoreIsRead(h, b, "", h.0 + b + ":");
    } else {
      TrimGivesBack(a, text, d);
      CoreIsRead(h, b, c, text);
    }
    hide Trim, HeaderOf;
  }

  lemma CoreIsRead(h: (string, string), b: string, c: string, core: string)
    requires Sendable(h) && Blanks(b) && Blanks(c) && core == h.0 + b + ":" + (c + h.1)
    ensures HeaderOf(core) == [h]
  {
    assert forall k :: 0 <= k < |b| ==> b[k] in b;
    var colon := |h.0 + b|;
    ColonAt(core, colon);
    assert core[..colon] == "" + h.0 + b && core[colon + 1..] == c + h.1 + "";
    TrimGivesBack("", h.0, b);
    TrimGivesBack(c, h.1, "");
    hide Trim, IndexOf;
  }

  /** A line without a colon that is neither a status line nor blank adds nothing. */
  lemma LineWithoutColonIsSkipped(j: Job, a: string, text: string, d: string, status: int)
    requires Blanks(a) && Blanks(d) && text != "" && ':' !in text
    requires text[0] !in " \t\r\n" && text[|text| - 1] !in " \t\r\n" && !("HTTP/" <= a + text + d)
    ensures OnHeaderLine(j, a + text + d, status) == Out(j, [])
  {
    TrimGivesBack(a, text, d);
    assert IndexOf(text, ':') == |text|;
    assert j.response.headers + [] == j.response.headers;
    hide Trim, IndexOf;
  }

  lemma LineIsRead(j: Job, h: (string, string), status: int)
    requires Sendable(h)
    ensures OnHeaderLine(j, LineOf(h), status)
         == Out(j.(response := j.response.(headers := j.response.headers + [h])), [])
  {
    hide OnHeaderLine;
    assert LineOf(h) == "" + (h.0 + "" + ":" + (" " + h.1)) + "\r\n";
    StatusNeedsSlash(h, LineOf(h));
    PaddedLineIsRead(j, "", h, "", " ", "\r\n", status);
  }

  lemma ColonAt(core: string, i: nat)
    requires i < |core| && core[i] == ':' && forall k :: 0 <= k < i ==> core[k] != ':'
    ensures IndexOf(core, ':') == i
  {
  }

  lemma StatusNeedsSlash(h: (string, string), line: string)
    requires Sendable(h) && line == LineOf(h)
    ensures !("HTTP/" <= line)
  {
    var name := h.0 + ":";
    assert name <= line && name[|h.0|] == ':';
    LongerPrefix("HTTP/", name, line, ':');
  }

  /** A prefix without `c` that goes on in `line` beside one that ends in `c` is no longer than it. */
  lemma LongerPrefix(p: string, name: string, line: string, c: char)
    requires name <= line && name != "" && name[|name| - 1] == c && c !in p
    ensures p <= line ==> p <= name
  {
    assert line[|name| - 1] == c;
    assert |p| >= |name| ==> p[|name| - 1] in p;
  }

  /** The header lines of a response, as one callback after the other. */
  function ReadBlock(j: Job, headers: HeaderList, status: int): Job {
    if headers == [] then j
    else OnHeaderLine(ReadBlock(j, headers[..|headers| - 1], status), LineOf(headers[|headers| - 1]), status).job
  }

  lemma {:induction false} BlockIsRead(j: Job, headers: HeaderList, status: int)
    requires forall i :: 0 <= i < |headers| ==> Sendable(headers[i])
    ensures ReadBlock(j, headers, status) == j.(response := j.response.(headers := j.response.headers + headers))
  {
    hide Sendable, OnHeaderLine;
    if headers == [] {
      assert j.response.headers + [] == j.response.headers;
    } else {
      var init, last := headers[..|headers| - 1], headers[|headers| - 1];
      BlockIsRead(j, init, status);
      LineIsRead(ReadBlock(j, init, status), last, status);
      assert j.response.headers + init + [last] == j.response.headers + headers;
    }
  }

  /** The redirect will be followed: a redirect status, following allowed, and a Location header. */
  predicate WillFollow(config: Config, headers: HeaderList, status: int) {
    && status in {301, 302, 303, 307, 308} && config.followRedirects
    && exists i :: 0 <= i < |headers| && SameName(headers[i].0, "location")
  }

  /** A whole response head, whatever came before it in the attempt: after its status line and its header
      lines the list is exactly what the server sent, in order. Its blank line posts one Headers event with
      that list exactly when the plugin asked for headers, the status is final, and the response is not a
      redirect about to be followed; a further blank line posts nothing. */
  lemma HeadIsRead(j: Job, line: string, headers: HeaderList, status: int, end: string)
    requires "HTTP/" <= line && (forall i :: 0 <= i < |headers| ==> Sendable(headers[i]))
    requires forall c :: c in end ==> c in " \t\r\n"
    ensures var j' := ReadBlock(OnHeaderLine(j, line, status).job, headers, status);
            var o := OnHeaderLine(j', end, status);
            && OnHeaderLine(j, line, status).posts == []
            && j'.response.headers == headers && o.job.response.headers == headers
            && o.posts == (if j.spec.wantHeaders && status >= 200 && !WillFollow(j.spec.config, headers, status)
                           then [Headers(j.spec.id, status, headers)] else [])
            && OnHeaderLine(o.job, end, status).posts == []
  {
    hide Trim, FindHeader, SameName, Sendable, ReadBlock, OnHeadersComplete, WillFollow, OnHeaderLine;
    StatusLineIsRead(j, line, status);
    var j0 := OnHeaderLine(j, line, status).job;
    var j' := ReadBlock(j0, headers, status);
    BlockIsRead(j0, headers, status);
    assert [] + headers == headers;
    BlankIsEmpty(end);
    BlankCompletes(j', end, status);
    CompletedHead(j', headers, status);
    BlankCompletes(OnHeadersComplete(j', status).job, end, status);
  }

  lemma StatusLineIsRead(j: Job, line: string, status: int)
    requires "HTTP/" <= line
    ensures OnHeaderLine(j, line, status) == Out(j.(response := j.response.(headers := [], headersPosted := false)), [])
  {
  }

  lemma CompletedHead(j: Job, headers: HeaderList, status: int)
    requires j.response.headers == headers && !j.response.headersPosted
    ensures var o := OnHeadersComplete(j, status);
            && o.job.response.headers == headers
            && o.posts == (if j.spec.wantHeaders && status >= 200 && !WillFollow(j.spec.config, headers, status)
                           then [Headers(j.spec.id, status, headers)] else [])
            && OnHeadersComplete(o.job, status).posts == []
  {
    FoundMeansThere(headers, "location");
    hide FindHeader, SameName;
  }

  lemma BlankCompletes(j: Job, end: string, status: int)
    requires Trim(end) == "" && !("HTTP/" <= end)
    ensures OnHeaderLine(j, end, status) == OnHeadersComplete(j, status)
  {
  }

  lemma BlankIsEmpty(end: string)
    requires forall c :: c in end ==> c in " \t\r\n"
    ensures Trim(end) == "" && !("HTTP/" <= end)
  {
    assert end + "" + "" == end;
    TrimGivesBack(end, "", "");
    assert end != "" ==> end[0] in end;
  }

  lemma {:induction false} FoundMeansThere(headers: HeaderList, name: string)
    ensures FindHeader(headers, name).Some? <==> exists i :: 0 <= i < |headers| && SameName(headers[i].0, name)
  {
    hide SameName;
    if headers != [] {
      FoundMeansThere(headers[1..], name);
      if i :| 0 <= i < |headers[1..]| && SameName(headers[1..][i].0, name) {
        assert SameName(headers[i + 1].0, name);
      }
      if i :| 0 <= i < |headers| && SameName(headers[i].0, name) {
        assert i > 0 ==> SameName(headers[1..][i - 1].0, name);
      }
    }
  }
}
