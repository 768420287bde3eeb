/** The RestJob object: its fields, updated in place by the methods of src/job.cpp, each proved to do
    what the functions of JobSpec say. */
module RestJob {
  import opened Text
  import opened Events
  import opened MainThreadQueue
  import S = JobSpec

  /** The files of the game directory. */
  class FileStore {
    var files: S.Disk

    constructor ()
      ensures files == map[]
    {
      files := map[];
    }
  }

  lemma PostNone(q: QueueState)
    ensures PostAll(q, []) == q
  {
  }

  class Job {
    const spec: RequestSpec
    const queue: Queue
    const store: FileStore

    var attempt: int
    var easy: bool
    var attached: bool
    var waitingForRetry: bool
    var retryAt: int
    var finished: bool
    var cancelRequested: bool

    // The remaining fields, grouped by what they describe.
    var response: S.Response
    var output: S.Output
    var stream: S.Stream

    ghost function View(): S.Job
      reads this
    {
      S.Job(spec, attempt, easy, attached, waitingForRetry, retryAt, finished, cancelRequested, response, output,
          stream)
    }

    constructor (spec: RequestSpec, queue: Queue, store: FileStore)
      ensures View() == S.NewJob(spec) && this.queue == queue && this.store == store
    {
      this.spec, this.queue, this.store := spec, queue, store;
      attempt, easy, attached, waitingForRetry, retryAt := 0, false, false, false, 0;
      finished, cancelRequested := false, false;
      response := S.EMPTY_RESPONSE;
      output := S.Output("", false, 0, false);
      stream := S.EMPTY_STREAM;
    }

    // ---------------------------------------------------------------- attempts

    method ResetAttemptState()
      modifies this
      ensures View() == S.ResetAttemptState(old(View()))
    {
      response := S.Response(0, [], false, "", 0, false, 0);
      stream := S.Stream("", 0, false);
      output := output.(restartedFullBody := false);
      waitingForRetry := false;
    }

    method Finish(status: RestStatus)
      modifies this, queue
      ensures View() == S.Finish(old(View()), status).job
      ensures queue.View() == PostAll(old(queue.View()), S.Finish(old(View()), status).posts)
    {
      if finished {
        return;
      }
      finished := true;
      waitingForRetry := false;
      var event := Complete(spec.id, status, response.httpStatus, response.headers, response.body, response.bodyLength);
      response := response.(body := "");
      queue.Post(event);
    }

    method OpenOutputFile(ok: bool) returns (usable: bool)
      modifies this, store
      ensures View() == S.OpenOutputFile(old(View()), old(store.files), ok).0
      ensures store.files == S.OpenOutputFile(old(View()), old(store.files), ok).1
      ensures usable == (spec.outputPath == "" || ok)
    {
      if spec.outputPath == "" {
        return true;
      }
      output := output.(partPath := spec.outputPath + ".part");
      var existing := if spec.resume then S.SizeOf(store.files, output.partPath) else -1;
      if existing > 0 {
        output := output.(open := ok, resumeOffset := existing);
      } else {
        if ok {
          store.files := store.files[output.partPath := ""];
        }
        output := output.(open := ok, resumeOffset := 0);
      }
      return output.open;
    }

    method BeginAttempt(a: S.BeginAnswers) returns (started: bool)
      modifies this, queue, store
      ensures View() == S.BeginAttempt(old(View()), old(store.files), a).0.job
      ensures queue.View() == PostAll(old(queue.View()), S.BeginAttempt(old(View()), old(store.files), a).0.posts)
      ensures store.files == S.BeginAttempt(old(View()), old(store.files), a).1
      ensures started <==> S.BeginFailure(old(View()), a).None?
    {
      hide S.Finish, S.OpenOutputFile, PostAll;
      PostNone(queue.View());
      attempt := attempt + 1;
      ResetAttemptState();
      if cancelRequested {
        Finish(Cancelled);
        return false;
      }
      easy := a.initOk;
      if !easy {
        Finish(NetworkError);
        return false;
      }
      if !a.uploadOk {
        Finish(IoError);
        return false;
      }
      var ok := OpenOutputFile(a.outputOk);
      if !ok {
        Finish(IoError);
        return false;
      }
      if !a.addOk {
        Finish(NetworkError);
        return false;
      }
      attached := true;
      return true;
    }

    method ReleaseCurl()
      modifies this
      ensures View() == S.ReleaseCurl(old(View()))
    {
      if !easy {
        return;
      }
      attached := false;
      easy := false;
    }

    // ---------------------------------------------------------------- headers

    method OnHeaderLine(line: string, status: int)
      modifies this, queue
      ensures View() == S.OnHeaderLine(old(View()), line, status).job
      ensures queue.View() == PostAll(old(queue.View()), S.OnHeaderLine(old(View()), line, status).posts)
    {
      if "HTTP/" <= line {
        response := response.(headers := [], headersPosted := false);
        return;
      }
      var trimmed := Trim(line);
      if trimmed == "" {
        OnHeadersComplete(status);
        return;
      }
      var colon := IndexOf(trimmed, ':');
      if colon == |trimmed| {
        assert response.headers + [] == response.headers;
        return;
      }
      response := response.(headers := response.headers + [(Trim(trimmed[..colon]), Trim(trimmed[colon + 1..]))]);
    }

    method OnHeadersComplete(status: int)
      modifies this, queue
      ensures View() == S.OnHeadersComplete(old(View()), status).job
      ensures queue.View() == PostAll(old(queue.View()), S.OnHeadersComplete(old(View()), status).posts)
    {
      if !spec.wantHeaders || response.headersPosted {
        return;
      }
      if status < 200 {
        return;
      }
      var willFollow := S.IsRedirect(status) && spec.config.followRedirects
          && FindHeader(response.headers, "location").Some?;
      if willFollow {
        return;
      }
      response := response.(headersPosted := true);
      queue.Post(Headers(spec.id, status, response.headers));
    }

    // ---------------------------------------------------------------- body sinks

    method WriteMemory(data: string) returns (r: S.WriteResult)
      modifies this
      ensures (View(), r) == S.WriteMemory(old(View()), data)
    {
      var primary := spec.outputPath == "" && !spec.streamData;
      var cap := if primary then S.SizeT(spec.config.maxBodySize) else S.MAX_ERROR_BODY;
      var room := if cap > |response.body| then cap - |response.body| else 0;
      if |data| > room && primary {
        response := response.(tooLarge := true);
        return S.Wrote(0);
      }
      assert data[..|data|] == data;
      response := response.(body := response.body
          + data[..S.Min(|data|, room)], bodyLength := response.bodyLength + |data|);
      return S.Wrote(|data|);
    }

    method WriteFile(data: string, status: int, a: S.WriteAnswers) returns (r: S.WriteResult)
      requires a.written <= |data|
      modifies this, store
      ensures (View(), store.files, r) == S.WriteFile(old(View()), old(store.files), data, status, a)
    {
      var serverIgnoredRange := status == 200 && output.resumeOffset > 0 && !output.restartedFullBody;
      if serverIgnoredRange {
        output := output.(restartedFullBody := true, resumeOffset := 0);
        if !a.reopenOk {
          if a.truncated {
            store.files := store.files[output.partPath := ""];
          }
          output := output.(open := false);
          return S.Wrote(0);
        }
        store.files := store.files[output.partPath := ""];
        output := output.(open := true);
      }
      var before := if output.partPath in store.files then store.files[output.partPath] else "";
      store.files := store.files[output.partPath := before + data[..a.written]];
      assert store.files == old(store.files)[output.partPath := before + data[..a.written]];
      response := response.(bodyLength := response.bodyLength + a.written);
      return S.Wrote(a.written);
    }

    method FlushStream()
      modifies this, queue
      ensures View() == S.FlushStream(old(View())).job
      ensures queue.View() == PostAll(old(queue.View()), S.FlushStream(old(View())).posts)
    {
      if stream.buffer == "" {
        return;
      }
      stream := stream.(pending := stream.pending + |stream.buffer|);
      var event := Data(spec.id, stream.buffer);
      stream := stream.(buffer := "");
      queue.Post(event);
    }

    method WriteStream(data: string) returns (r: S.WriteResult)
      modifies this, queue
      ensures View() == S.WriteStream(old(View()), data).0.job && r == S.WriteStream(old(View()), data).1
      ensures queue.View() == PostAll(old(queue.View()), S.WriteStream(old(View()), data).0.posts)
    {
      if stream.pending >= S.STREAM_HIGH_WATER {
        stream := stream.(paused := true);
        return S.Pause;
      }
      stream := stream.(buffer := stream.buffer + data);
      response := response.(bodyLength := response.bodyLength + |data|);
      if |stream.buffer| >= S.SizeT(spec.config.chunkSize) {
        FlushStream();
      }
      return S.Wrote(|data|);
    }

    /** The write callback: the status decides where the bytes go. */
    method WriteCallback(data: string, status: int, a: S.WriteAnswers) returns (r: S.WriteResult)
      requires a.written <= |data|
      modifies this, queue, store
      ensures View() == S.OnWrite(old(View()), old(store.files), data, status, a).0.job
      ensures queue.View() == PostAll(old(queue.View()), S.OnWrite(old(View()), old(store.files), data, status,
          a).0.posts)
      ensures store.files == S.OnWrite(old(View()), old(store.files), data, status, a).1
      ensures r == S.OnWrite(old(View()), old(store.files), data, status, a).2
    {
      hide S.WriteMemory, S.WriteFile, S.WriteStream;
      match S.SinkFor(spec, status) {
        case FileSink => r := WriteFile(data, status, a);
        case StreamSink => r := WriteStream(data);
        case MemorySink => r := WriteMemory(data);
      }
    }

    /** Credit from the main thread; the transfer resumes once the counter is below low water. */
    method OnStreamConsumed(bytes: int) returns (resumed: bool)
      modifies this
      ensures View() == S.OnStreamConsumed(old(View()), bytes)
      ensures resumed <==> old(stream.paused) && attached && stream.pending < 1048576
    {
      stream := stream.(pending := S.Max(0, stream.pending - bytes));
      if !stream.paused || stream.pending >= S.STREAM_LOW_WATER || !attached {
        return false;
      }
      stream := stream.(paused := false);
      return true;
    }

    /** The progress callback: true asks libcurl to abort the transfer. */
    method ProgressCallback(now: int, dltotal: int, dlnow: int, ultotal: int, ulnow: int) returns (abort: bool)
      modifies this, queue
      ensures abort == old(cancelRequested)
      ensures abort ==> View() == old(View()) && queue.View() == old(queue.View())
      ensures !abort ==> View() == S.PostProgress(old(View()), now, dltotal, dlnow, ultotal, ulnow).job
      ensures !abort ==> queue.View() == PostAll(old(queue.View()),
                                                 S.PostProgress(old(View()), now, dltotal, dlnow, ultotal, ulnow).posts)
    {
      if cancelRequested {
        return true;
      }
      PostProgress(now, dltotal, dlnow, ultotal, ulnow);
      return false;
    }

    method PostProgress(now: int, dltotal: int, dlnow: int, ultotal: int, ulnow: int)
      modifies this, queue
      ensures View() == S.PostProgress(old(View()), now, dltotal, dlnow, ultotal, ulnow).job
      ensures queue.View() == PostAll(old(queue.View()),
                                      S.PostProgress(old(View()), now, dltotal, dlnow, ultotal, ulnow).posts)
    {
      if dlnow <= 0 && ulnow <= 0 {
        return;
      }
      var elapsed := now - response.lastProgress;
      var downloadComplete := dltotal > 0 && dlnow >= dltotal;
      var uploadComplete := ultotal > 0 && ulnow >= ultotal;
      if !downloadComplete && !uploadComplete && elapsed < spec.config.progressInterval {
        return;
      }
      response := response.(lastProgress := now);
      var offset := output.resumeOffset;
      queue.Post(Progress(spec.id, dlnow + offset, if dltotal > 0 then dltotal + offset else 0, ulnow, ultotal));
    }

    // ---------------------------------------------------------------- completion

    predicate CanRetry()
      reads this
      ensures CanRetry() <==> S.CanRetry(View())
    {
      attempt <= spec.config.maxRetries && !(spec.streamData && response.bodyLength > 0)
    }

    method ScheduleRetry(now: int, jitter: int)
      modifies this
      ensures View() == S.ScheduleRetry(old(View()), now, jitter)
      ensures waitingForRetry && retryAt == now + S.RetryDelay(response.headers, attempt, jitter)
    {
      var retryAfter := S.ParseRetryAfterMs(response.headers);
      var backoff := S.BackoffBase(attempt) + jitter;
      retryAt := now + (if retryAfter >= 0 then retryAfter else backoff);
      waitingForRetry := true;
    }

    /** The job's state after a verdict on the attempt that has just been released. */
    ghost function Judged(j: S.Job, v: S.Verdict, a: S.DoneAnswers): S.Out {
      match v
      case Retry => S.Out(S.ScheduleRetry(j, a.now, a.jitter), [])
      case End(status) => S.EndAttempt(j, status)
    }

    method HandleTransportFailure(a: S.DoneAnswers)
      requires a.code != S.CurlOk
      modifies this, queue
      ensures var o := Judged(old(View()), S.TransportVerdict(old(View()), a.code), a);
              View() == o.job && queue.View() == PostAll(old(queue.View()), o.posts)
    {
      hide S.ScheduleRetry, S.Finish;
      if a.code == S.AbortedByCallback {
        Finish(Cancelled);
        return;
      }
      if a.code == S.WriteError && response.tooLarge {
        Finish(TooLarge);
        return;
      }
      if a.code == S.WriteError || a.code == S.ReadError {
        Finish(IoError);
        return;
      }
      if S.IsPermanent(a.code) {
        Finish(NetworkError);
        return;
      }
      if CanRetry() {
        ScheduleRetry(a.now, a.jitter);
        return;
      }
      Finish(if a.code == S.TimedOut then Timeout else NetworkError);
    }

    method HandleHttpFailure(a: S.DoneAnswers)
      requires a.status == response.httpStatus && !S.IsSuccess(a.status)
      modifies this, queue, store
      ensures var o := Judged(old(View()), S.HttpVerdict(old(View()), old(store.files), a), a);
              View() == o.job && queue.View() == PostAll(old(queue.View()), o.posts)
      ensures store.files == S.DiskAfterDone(old(View()), old(store.files),
                                             S.HttpVerdict(old(View()), old(store.files), a), a.status)
    {
      hide S.ScheduleRetry, S.Finish;
      if S.ShouldRetryStatus(response.httpStatus) && CanRetry() {
        ScheduleRetry(a.now, a.jitter);
        return;
      }
      var clientError := response.httpStatus >= 400 && response.httpStatus < 500;
      if output.partPath != "" && clientError {
        store.files := store.files - {output.partPath};
      }
      Finish(HttpError);
    }

    method FinalizeDownload(renameOk: bool) returns (ok: bool)
      modifies store
      ensures ok == (renameOk && output.partPath in old(store.files))
      ensures store.files
           == if ok then (old(store.files) - {output.partPath})[spec.outputPath := old(store.files)[output.partPath]]
              else old(store.files)
    {
      if !renameOk || output.partPath !in store.files {
        return false;
      }
      var contents := store.files[output.partPath];
      store.files := (store.files - {output.partPath})[spec.outputPath := contents];
      return true;
    }

    method HandleHttpSuccess(a: S.DoneAnswers)
      requires S.IsSuccess(a.status)
      modifies this, queue, store
      ensures var o := Judged(old(View()), S.HttpVerdict(old(View()), old(store.files), a), a);
              View() == o.job && queue.View() == PostAll(old(queue.View()), o.posts)
      ensures store.files == S.DiskAfterDone(old(View()), old(store.files),
                                             S.HttpVerdict(old(View()), old(store.files), a), a.status)
    {
      hide S.Finish, S.FlushStream;
      if spec.outputPath == "" {
        FlushStream();
        assert View().spec == old(View()).spec by {
          S.FlushShape(old(View()));
        }
        Finish(Ok);
        PostAllConcat(old(queue.View()), S.FlushStream(old(View())).posts, S.Finish(S.FlushStream(old(View())).job,
            Ok).posts);
        return;
      }
      var finalized := FinalizeDownload(a.renameOk);
      if !finalized {
        Finish(IoError);
        return;
      }
      Finish(Ok);
    }

    method OnAttemptDone(a: S.DoneAnswers)
      modifies this, queue, store
      ensures View() == S.OnAttemptDone(old(View()), old(store.files), a).0.job
      ensures queue.View() == PostAll(old(queue.View()), S.OnAttemptDone(old(View()), old(store.files), a).0.posts)
      ensures store.files == S.OnAttemptDone(old(View()), old(store.files), a).1
    {
      response := response.(httpStatus := a.status);
      output := output.(open := false);
      ReleaseCurl();
      S.AfterTransferFields(old(View()), a.status);
      assert View() == S.AfterTransfer(old(View()), a.status);
      S.VerdictsAgree(old(View()), View(), store.files, a);
      S.OnlyResponsesTouchDisk(View(), store.files, a);
      hide S.ScheduleRetry, S.AfterTransfer, S.TransportVerdict, S.HttpVerdict, S.FlushStream, S.Finish,
          S.DiskAfterDone, PostAll;
      if cancelRequested {
        Finish(Cancelled);
        return;
      }
      if a.code != S.CurlOk {
        HandleTransportFailure(a);
        return;
      }
      if S.IsSuccess(response.httpStatus) {
        HandleHttpSuccess(a);
        return;
      }
      HandleHttpFailure(a);
    }

    method Cancel()
      modifies this, queue
      ensures View() == S.Cancel(old(View())).job
      ensures queue.View() == PostAll(old(queue.View()), S.Cancel(old(View())).posts)
    {
      cancelRequested := true;
      output := output.(open := false);
      ReleaseCurl();
      Finish(Cancelled);
    }
  }
}
