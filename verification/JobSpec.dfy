/** What one RestJob does, as functions on its fields (src/job.cpp, src/job.h).

    The answers of libcurl, the file system, the clock and the random generator are
    inputs. Each function returns the new field values and the events it posts. */
module JobSpec {
  import opened Maybe
  import opened Text
  import opened Events

  const MAX_ERROR_BODY := 64 * 1024
  const STREAM_HIGH_WATER := 4 * 1024 * 1024
  const STREAM_LOW_WATER := 1024 * 1024
  const BACKOFF_BASE_MS := 1000
  const BACKOFF_CAP_MS := 30000
  const RETRY_AFTER_CAP_MS := 60000

  /** Path to contents; a path that is absent does not exist. */
  type Disk = map<string, string>

  /** What the current attempt has received. */
  datatype Response = Response(
    httpStatus: int,
    headers: HeaderList,
    headersPosted: bool,
    body: string,
    bodyLength: int,
    tooLarge: bool,
    lastProgress: int)

  /** The download file; `open` says m_outputFile is not null. */
  datatype Output = Output(partPath: string, open: bool, resumeOffset: int, restartedFullBody: bool)

  /** Stream bytes not yet posted, bytes posted and not yet credited, and the pause flag. */
  datatype Stream = Stream(buffer: string, pending: int, paused: bool)

  /** `easy` says m_easy is not null. */
  datatype Job = Job(
    spec: RequestSpec,
    attempt: int,
    easy: bool,
    attached: bool,
    waitingForRetry: bool,
    retryAt: int,
    finished: bool,
    cancelRequested: bool,
    response: Response,
    output: Output,
    stream: Stream)

  datatype Out = Out(job: Job, posts: seq<Event>)

  datatype Sink = MemorySink | FileSink | StreamSink

  /** What a write callback returns to libcurl. */
  datatype WriteResult = Wrote(n: nat) | Pause

  datatype TransferCode =
    | CurlOk | AbortedByCallback | WriteError | ReadError
    | BadCaFile | PeerVerification | TooManyRedirects | MalformedUrl | UnsupportedProtocol
    | TimedOut | OtherFailure

  datatype BeginAnswers = BeginAnswers(initOk: bool, uploadOk: bool, outputOk: bool, addOk: bool)

  /** `written` is fwrite's answer; a failed freopen may or may not have truncated the file. */
  datatype WriteAnswers = WriteAnswers(written: nat, reopenOk: bool, truncated: bool)

  datatype DoneAnswers = DoneAnswers(code: TransferCode, status: int, now: int, jitter: int, renameOk: bool)

  const EMPTY_RESPONSE := Response(0, [], false, "", 0, false, 0)
  const EMPTY_STREAM := Stream("", 0, false)

  function NewJob(spec: RequestSpec): Job {
    Job(spec, 0, false, false, false, 0, false, false, EMPTY_RESPONSE, Output("", false, 0, false), EMPTY_STREAM)
  }

  predicate IsSuccess(status: int) {
    200 <= status < 300
  }

  predicate IsRedirect(status: int) {
    status in {301, 302, 303, 307, 308}
  }

  /** static_cast<size_t> on the 32-bit target. */
  function SizeT(x: int): nat {
    x % 0x1_0000_0000
  }

  /** Two's complement value of a 32-bit long. */
  function Long32(x: int): int {
    (x + 0x8000_0000) % 0x1_0000_0000 - 0x8000_0000
  }

  function SizeOf(disk: Disk, path: string): int {
    if path in disk then |disk[path]| else -1
  }

  function PartOf(spec: RequestSpec): string {
    spec.outputPath + ".part"
  }

  // ---------------------------------------------------------------- attempts

  function ResetAttemptState(j: Job): Job {
    j.(waitingForRetry := false, response := EMPTY_RESPONSE, stream := EMPTY_STREAM,
       output := j.output.(restartedFullBody := false))
  }

  function CompleteEvent(j: Job, status: RestStatus): Event {
    Complete(j.spec.id, status, j.response.httpStatus, j.response.headers, j.response.body, j.response.bodyLength)
  }

  function Finish(j: Job, status: RestStatus): Out {
    if j.finished then Out(j, [])
    else Out(j.(finished := true, waitingForRetry := false, response := j.response.(body := "")),
             [CompleteEvent(j, status)])
  }

  function OpenOutputFile(j: Job, disk: Disk, ok: bool): (Job, Disk) {
    if j.spec.outputPath == "" then (j, disk)
    else
      var part := PartOf(j.spec);
      var existing := if j.spec.resume then SizeOf(disk, part) else -1;
      var output := j.output.(partPath := part, open := ok, resumeOffset := if existing > 0 then existing else 0);
      (j.(output := output), if existing > 0 || !ok then disk else disk[part := ""])
  }

  /** Why BeginAttempt ends the job instead of starting a transfer, if it does. */
  function BeginFailure(j: Job, a: BeginAnswers): Option<RestStatus> {
    if j.cancelRequested then Some(Cancelled)
    else if !a.initOk then Some(NetworkError)
    else if !a.uploadOk then Some(IoError)
    else if j.spec.outputPath != "" && !a.outputOk then Some(IoError)
    else if !a.addOk then Some(NetworkError)
    else None
  }

  function BeginAttempt(j: Job, disk: Disk, a: BeginAnswers): (Out, Disk) {
    var reset := ResetAttemptState(j.(attempt := j.attempt + 1));
    var created := if j.cancelRequested then reset else reset.(easy := a.initOk);
    var (filed, disk') := if j.cancelRequested || !a.initOk || !a.uploadOk then (created, disk)
                          else OpenOutputFile(created, disk, a.outputOk);
    match BeginFailure(j, a)
    case Some(status) => (Finish(filed, status), disk')
    case None => (Out(filed.(attached := true), []), disk')
  }

  /** The first byte the request asks for, when it carries a Range header. */
  function RangeStart(j: Job): Option<nat> {
    if j.output.resumeOffset > 0 then Some(j.output.resumeOffset) else None
  }

  function ReleaseCurl(j: Job): Job {
    if j.easy then j.(attached := false, easy := false) else j
  }

  // ---------------------------------------------------------------- headers

  predicate IsStatusLine(line: string) {
    "HTTP/" <= line
  }

  function OnHeaderLine(j: Job, line: string, status: int): Out {
    if IsStatusLine(line) then Out(j.(response := j.response.(headers := [], headersPosted := false)), [])
    else
      var trimmed := Trim(line);
      if trimmed == "" then OnHeadersComplete(j, status)
      else Out(j.(response := j.response.(headers := j.response.headers + HeaderOf(trimmed))), [])
  }

  /** The header a trimmed, non-empty line adds: nothing when it has no colon. */
  function HeaderOf(trimmed: string): HeaderList {
    var colon := IndexOf(trimmed, ':');
    if colon == |trimmed| then [] else [(Trim(trimmed[..colon]), Trim(trimmed[colon + 1..]))]
  }

  predicate PostsHeaders(j: Job, status: int) {
    && j.spec.wantHeaders && !j.response.headersPosted && status >= 200
    && !(IsRedirect(status) && j.spec.config.followRedirects && FindHeader(j.response.headers, "location").Some?)
  }

  function OnHeadersComplete(j: Job, status: int): Out {
    if !PostsHeaders(j, status) then Out(j, [])
    else Out(j.(response := j.response.(headersPosted := true)), [Headers(j.spec.id, status, j.response.headers)])
  }

  // ---------------------------------------------------------------- body sinks

  function SinkFor(spec: RequestSpec, status: int): Sink {
    if !IsSuccess(status) then MemorySink
    else if spec.outputPath != "" then FileSink
    else if spec.streamData then StreamSink
    else MemorySink
  }

  predicate Primary(spec: RequestSpec) {
    spec.outputPath == "" && !spec.streamData
  }

  function MemoryCap(spec: RequestSpec): nat {
    if Primary(spec) then SizeT(spec.config.maxBodySize) else MAX_ERROR_BODY
  }

  function WriteMemory(j: Job, data: string): (Job, WriteResult) {
    var r := j.response;
    var cap := MemoryCap(j.spec);
    var room := if cap > |r.body| then cap - |r.body| else 0;
    if |data| > room && Primary(j.spec) then (j.(response := r.(tooLarge := true)), Wrote(0))
    else
      var kept := if |data| < room then data else data[..room];
      (j.(response := r.(body := r.body + kept, bodyLength := r.bodyLength + |data|)), Wrote(|data|))
  }

  /** The server answered a Range request with the whole resource. */
  predicate ServerIgnoredRange(j: Job, status: int) {
    status == 200 && j.output.resumeOffset > 0 && !j.output.restartedFullBody
  }

  function WriteFile(j: Job, disk: Disk, data: string, status: int, a: WriteAnswers): (Job, Disk, WriteResult)
    requires a.written <= |data|
  {
    var part := j.output.partPath;
    var ignored := ServerIgnoredRange(j, status);
    var output := if ignored then j.output.(restartedFullBody := true, resumeOffset := 0, open := a.reopenOk)
                  else j.output;
    if ignored && !a.reopenOk then
      (j.(output := output), if a.truncated then disk[part := ""] else disk, Wrote(0))
    else
      var before := if ignored || part !in disk then "" else disk[part];
      (j.(output := output, response := j.response.(bodyLength := j.response.bodyLength + a.written)),
       disk[part := before + data[..a.written]], Wrote(a.written))
  }

  function FlushStream(j: Job): Out {
    if j.stream.buffer == "" then Out(j, [])
    else Out(j.(stream := j.stream.(pending := j.stream.pending + |j.stream.buffer|, buffer := "")),
             [Data(j.spec.id, j.stream.buffer)])
  }

  function WriteStream(j: Job, data: string): (Out, WriteResult) {
    if j.stream.pending >= STREAM_HIGH_WATER then (Out(j.(stream := j.stream.(paused := true)), []), Pause)
    else
      var j1 := j.(stream := j.stream.(buffer := j.stream.buffer + data),
                   response := j.response.(bodyLength := j.response.bodyLength + |data|));
      (if |j1.stream.buffer| >= SizeT(j.spec.config.chunkSize) then FlushStream(j1) else Out(j1, []), Wrote(|data|))
  }

  function OnWrite(j: Job, disk: Disk, data: string, status: int, a: WriteAnswers): (Out, Disk, WriteResult)
    requires a.written <= |data|
  {
    match SinkFor(j.spec, status)
    case FileSink => var (j', disk', r) := WriteFile(j, disk, data, status, a); (Out(j', []), disk', r)
    case StreamSink => var (o, r) := WriteStream(j, data); (o, disk, r)
    case MemorySink => var (j', r) := WriteMemory(j, data); (Out(j', []), disk, r)
  }

  function Max(a: int, b: int): int {
    if a < b then b else a
  }

  function Min(a: int, b: int): int {
    if a < b then a else b
  }

  function OnStreamConsumed(j: Job, bytes: int): Job {
    var pending := Max(0, j.stream.pending - bytes);
    var paused := j.stream.paused && (pending >= STREAM_LOW_WATER || !j.attached);
    j.(stream := j.stream.(pending := pending, paused := paused))
  }

  // ---------------------------------------------------------------- progress

  predicate PostsProgress(j: Job, now: int, dltotal: int, dlnow: int, ultotal: int, ulnow: int) {
    && (dlnow > 0 || ulnow > 0)
    && (|| (dltotal > 0 && dlnow >= dltotal)
        || (ultotal > 0 && ulnow >= ultotal)
        || now - j.response.lastProgress >= j.spec.config.progressInterval)
  }

  function PostProgress(j: Job, now: int, dltotal: int, dlnow: int, ultotal: int, ulnow: int): Out {
    if !PostsProgress(j, now, dltotal, dlnow, ultotal, ulnow) then Out(j, [])
    else
      var offset := j.output.resumeOffset;
      Out(j.(response := j.response.(lastProgress := now)),
          [Progress(j.spec.id, dlnow + offset, if dltotal > 0 then dltotal + offset else 0, ulnow, ultotal)])
  }

  // ---------------------------------------------------------------- retries

  predicate CanRetry(j: Job) {
    j.attempt <= j.spec.config.maxRetries && !(j.spec.streamData && j.response.bodyLength > 0)
  }

  predicate ShouldRetryStatus(status: int) {
    status in {429, 502, 503, 504}
  }

  predicate IsSpace(c: char) {
    IsBlank(c) || c == 11 as char || c == 12 as char
  }

  predicate IsDigit(c: char) {
    '0' <= c <= '9'
  }

  function DigitsValue(s: string, acc: nat): nat {
    if s != "" && IsDigit(s[0]) then DigitsValue(s[1..], acc * 10 + (s[0] - '0') as nat) else acc
  }

  /** strtol with base 10 on a 32-bit long: None when no digit was read, saturating otherwise. */
  function ParseLong(s: string): Option<int> {
    if s != "" && IsSpace(s[0]) then ParseLong(s[1..])
    else
      var negative := s != "" && s[0] == '-';
      var digits := if s != "" && (s[0] == '-' || s[0] == '+') then s[1..] else s;
      if digits == "" || !IsDigit(digits[0]) then None
      else if negative then Some(Max(-0x8000_0000, 0 - (DigitsValue(digits, 0) as int)))
      else Some(Min(0x7FFF_FFFF, DigitsValue(digits, 0)))
  }

  function RetryAfterOf(seconds: int): int {
    if seconds < 0 then -1 else Min(RETRY_AFTER_CAP_MS, Long32(seconds * 1000))
  }

  /** -1 stands for "no usable Retry-After header". */
  function ParseRetryAfterMs(headers: HeaderList): int {
    match FindHeader(headers, "retry-after")
    case None => -1
    case Some(value) =>
      match ParseLong(value)
      case None => -1
      case Some(seconds) => RetryAfterOf(seconds)
  }

  function Pow2(n: nat): nat {
    if n == 0 then 1 else 2 * Pow2(n - 1)
  }

  function BackoffBase(attempt: int): int {
    Min(BACKOFF_CAP_MS, BACKOFF_BASE_MS * Pow2(Max(0, Min(attempt - 1, 10))))
  }

  function RetryDelay(headers: HeaderList, attempt: int, jitter: int): int {
    var retryAfter := ParseRetryAfterMs(headers);
    if retryAfter >= 0 then retryAfter else BackoffBase(attempt) + jitter
  }

  /** The range std::uniform_int_distribution draws the jitter from. */
  predicate JitterInRange(attempt: int, jitter: int) {
    -(BackoffBase(attempt) / 4) <= jitter <= BackoffBase(attempt) / 4
  }

  function ScheduleRetry(j: Job, now: int, jitter: int): Job {
    j.(retryAt := now + RetryDelay(j.response.headers, j.attempt, jitter), waitingForRetry := true)
  }

  // ---------------------------------------------------------------- completion

  predicate IsPermanent(code: TransferCode) {
    code in {BadCaFile, PeerVerification, TooManyRedirects, MalformedUrl, UnsupportedProtocol}
  }

  /** What the end of an attempt leads to. */
  datatype Verdict = Retry | End(status: RestStatus)

  function TransportVerdict(j: Job, code: TransferCode): Verdict {
    if code == AbortedByCallback then End(Cancelled)
    else if code == WriteError && j.response.tooLarge then End(TooLarge)
    else if code == WriteError || code == ReadError then End(IoError)
    else if IsPermanent(code) then End(NetworkError)
    else if CanRetry(j) then Retry
    else if code == TimedOut then End(Timeout)
    else End(NetworkError)
  }

  function HttpVerdict(j: Job, disk: Disk, a: DoneAnswers): Verdict {
    if IsSuccess(a.status) then
      if j.spec.outputPath == "" || (a.renameOk && j.output.partPath in disk) then End(Ok) else End(IoError)
    else if ShouldRetryStatus(a.status) && CanRetry(j) then Retry
    else End(HttpError)
  }

  function DoneVerdict(j: Job, disk: Disk, a: DoneAnswers): Verdict {
    if j.cancelRequested then End(Cancelled)
    else if a.code != CurlOk then TransportVerdict(j, a.code)
    else HttpVerdict(j, disk, a)
  }

  /** Success renames the part file, a final 4xx deletes it, everything else leaves it. */
  function DiskAfterDone(j: Job, disk: Disk, verdict: Verdict, httpStatus: int): Disk {
    var part := j.output.partPath;
    if verdict == End(Ok) && j.spec.outputPath != "" && part in disk then
      (disk - {part})[j.spec.outputPath := disk[part]]
    else if verdict == End(HttpError) && part != "" && 400 <= httpStatus < 500 then disk - {part}
    else disk
  }

  function AfterTransfer(j: Job, status: int): Job {
    ReleaseCurl(j.(response := j.response.(httpStatus := status), output := j.output.(open := false)))
  }

  function OnAttemptDone(j: Job, disk: Disk, a: DoneAnswers): (Out, Disk) {
    var released := AfterTransfer(j, a.status);
    var verdict := DoneVerdict(j, disk, a);
    (match verdict
     case Retry => Out(ScheduleRetry(released, a.now, a.jitter), [])
     case End(status) => EndAttempt(released, status),
     DiskAfterDone(j, disk, verdict, a.status))
  }

  /** A success without an output file first flushes what is buffered. */
  function EndAttempt(j: Job, status: RestStatus): Out {
    if status == Ok && j.spec.outputPath == "" then
      var flushed := FlushStream(j);
      var done := Finish(flushed.job, status);
      Out(done.job, flushed.posts + done.posts)
    else Finish(j, status)
  }

  function Cancel(j: Job): Out {
    Finish(ReleaseCurl(j.(cancelRequested := true, output := j.output.(open := false))), Cancelled)
  }

  // ---------------------------------------------------------------- what no operation changes

  /** The request and the attempt number stay, and finished is final. */
  predicate SameJob(before: Job, after: Job) {
    after.spec == before.spec && after.attempt == before.attempt && (before.finished ==> after.finished)
  }

  /** A new attempt starts from empty buffers, counters at zero and no pause; it is attached, or the
      job is finished and has said so. */
  lemma BeginShape(j: Job, disk: Disk, a: BeginAnswers)
    requires !j.finished && !j.attached
    ensures var o := BeginAttempt(j, disk, a).0;
            && SameJob(j.(attempt := j.attempt + 1), o.job)
            && o.job.stream == EMPTY_STREAM && !o.job.waitingForRetry
            && o.job.response == EMPTY_RESPONSE
            && o.job.cancelRequested == j.cancelRequested
            && (o.job.attached <==> BeginFailure(j, a).None?) && (o.job.attached ==> o.job.easy)
            && (o.job.finished <==> BeginFailure(j, a).Some?)
            && o.posts == match BeginFailure(j, a)
                          case None => []
                          case Some(status) => [Complete(j.spec.id, status, 0, [], "", 0)]
  {
    hide OpenOutputFile, BeginFailure;
    OpenShape(ResetAttemptState(j.(attempt := j.attempt + 1)).(easy := a.initOk), disk, a.outputOk);
    assert BeginFailure(j, a).None? ==> !j.cancelRequested && a.initOk by {
      BeginFailureCauses(j, a);
    }
  }

  lemma BeginFailureCauses(j: Job, a: BeginAnswers)
    ensures BeginFailure(j, a).None? ==> !j.cancelRequested && a.initOk
  {
  }

  lemma OpenShape(j: Job, disk: Disk, ok: bool)
    ensures OpenOutputFile(j, disk, ok).0 == j.(output := OpenOutputFile(j, disk, ok).0.output)
  {
  }

  lemma HeaderLineShape(j: Job, line: string, status: int)
    ensures SameJob(j, OnHeaderLine(j, line, status).job)
    ensures var r := OnHeaderLine(j, line, status).job.response;
            OnHeaderLine(j, line, status).job == j.(response := r) && r.bodyLength == j.response.bodyLength
  {
    hide Trim, HeaderOf, OnHeadersComplete, IsStatusLine;
    CompleteShape(j, status);
  }

  lemma CompleteShape(j: Job, status: int)
    ensures OnHeadersComplete(j, status).job == j.(response := j.response.(headersPosted :=
                                                   OnHeadersComplete(j, status).job.response.headersPosted))
  {
    hide PostsHeaders;
  }

  lemma WriteShape(j: Job, disk: Disk, data: string, status: int, a: WriteAnswers)
    requires a.written <= |data|
    ensures SameJob(j, OnWrite(j, disk, data, status, a).0.job)
    ensures OnWrite(j, disk, data, status, a).0.job.finished == j.finished
  {
    hide WriteMemory, WriteFile, WriteStream, SinkFor;
    MemoryShape(j, data);
    FileShape(j, disk, data, status, a);
    StreamShape(j, data);
  }

  lemma MemoryShape(j: Job, data: string)
    ensures WriteMemory(j, data).0 == j.(response := WriteMemory(j, data).0.response)
  {
  }

  lemma FileShape(j: Job, disk: Disk, data: string, status: int, a: WriteAnswers)
    requires a.written <= |data|
    ensures WriteFile(j, disk, data, status, a).0
         == j.(response := WriteFile(j, disk, data, status, a).0.response,
               output := WriteFile(j, disk, data, status, a).0.output)
  {
  }

  lemma StreamShape(j: Job, data: string)
    ensures WriteStream(j, data).0.job
         == j.(response := WriteStream(j, data).0.job.response, stream := WriteStream(j, data).0.job.stream)
  {
    hide SizeT, FlushStream;
    FlushShape(j.(stream := j.stream.(buffer := j.stream.buffer + data),
                  response := j.response.(bodyLength := j.response.bodyLength + |data|)));
  }

  lemma TickShape(j: Job, now: int, dltotal: int, dlnow: int, ultotal: int, ulnow: int)
    ensures SameJob(j, PostProgress(j, now, dltotal, dlnow, ultotal, ulnow).job)
    ensures var r := PostProgress(j, now, dltotal, dlnow, ultotal, ulnow).job.response;
            && PostProgress(j, now, dltotal, dlnow, ultotal, ulnow).job == j.(response := r)
            && r.bodyLength == j.response.bodyLength
  {
  }

  lemma ConsumedShape(j: Job, bytes: int)
    ensures OnStreamConsumed(j, bytes) == j.(stream := OnStreamConsumed(j, bytes).stream)
  {
  }

  lemma DoneShape(j: Job, disk: Disk, a: DoneAnswers)
    ensures SameJob(j, OnAttemptDone(j, disk, a).0.job)
  {
    hide DoneVerdict, DiskAfterDone, RetryDelay;
  }

  lemma CancelShape(j: Job)
    ensures SameJob(j, Cancel(j).job) && Cancel(j).job.finished && Cancel(j).job.output == j.output.(open := false)
    ensures Cancel(j).job.attached ==> j.attached && !j.easy
  {
  }

  lemma FlushShape(j: Job)
    ensures FlushStream(j).job == j.(stream := FlushStream(j).job.stream)
  {
  }

  lemma AfterTransferFields(j: Job, status: int)
    ensures var r := AfterTransfer(j, status);
            && r.spec == j.spec && r.attempt == j.attempt && r.cancelRequested == j.cancelRequested
            && r.response == j.response.(httpStatus := status) && r.output.partPath == j.output.partPath
  {
  }

  /** A cancelled or failed transfer leaves the files as they are. */
  lemma OnlyResponsesTouchDisk(j: Job, disk: Disk, a: DoneAnswers)
    ensures DiskAfterDone(j, disk, End(Cancelled), a.status) == disk
    ensures DiskAfterDone(j, disk, TransportVerdict(j, a.code), a.status) == disk
  {
  }

  /** The verdict looks at nothing the release of the transfer changes. */
  lemma VerdictsAgree(before: Job, after: Job, disk: Disk, a: DoneAnswers)
    requires after.spec == before.spec && after.attempt == before.attempt
    requires after.response == before.response.(httpStatus := a.status)
    requires after.output.partPath == before.output.partPath
    ensures TransportVerdict(after, a.code) == TransportVerdict(before, a.code)
    ensures HttpVerdict(after, disk, a) == HttpVerdict(before, disk, a)
    ensures forall v :: DiskAfterDone(after, disk, v, a.status) == DiskAfterDone(before, disk, v, a.status)
  {
  }
}
