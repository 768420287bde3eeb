/** The resumable download: the `.part` file over any number of interrupted attempts
    (src/job.cpp:221-244, 284-288, 602-628, 818-828, 874-914).

    The server holds one fixed resource R, served without content coding. It answers a request for
    bytes from k on with 206 and R from k on, or with 200 and all of R, or with a status that is not
    2xx and any body (sections 14.2 and 15.3.7 of RFC 9110). No other job writes the same path. */
module Download {
  import opened Maybe
  import opened Text
  import opened Events
  import opened JobSpec
  import opened Live

  /** What the server may answer the attempt that has just begun. */
  predicate Conforms(j: Job, resource: string, status: int, body: string) {
    IsSuccess(status) ==>
      || (status == 200 && body == resource)
      || (status == 206 && RangeStart(j).Some? && RangeStart(j).value <= |resource|
          && body == resource[RangeStart(j).value..])
  }

  function Part(l: Live): string {
    PartOf(l.job.spec)
  }

  /** The part file is a prefix of the resource. */
  predicate PartIsPrefix(l: Live, disk: Disk, resource: string) {
    Part(l) in disk && disk[Part(l)] <= resource
  }

  /** While a 2xx body comes in, what is on disk and what is still to come make up the resource,
      and the file is as long as the resume offset and the bytes counted say. */
  predicate InStep(l: Live, disk: Disk, resource: string) {
    l.job.attached && IsSuccess(l.wire.status) && !l.wire.aborted ==>
      && Part(l) in disk
      && |disk[Part(l)]| == l.job.output.resumeOffset + l.job.response.bodyLength
      && (if ServerIgnoredRange(l.job, l.wire.status) then l.wire.remaining == resource
         && l.job.response.bodyLength == 0
          else disk[Part(l)] + l.wire.remaining == resource)
  }

  ghost predicate DownloadInv(l: Live, disk: Disk, resource: string) {
    && l.job.spec.outputPath != ""
    && (l.job.attempt > 0 && !l.job.finished ==> PartIsPrefix(l, disk, resource) && l.job.output.partPath == Part(l))
    && (l.job.spec.resume && Part(l) in disk ==> disk[Part(l)] <= resource)
    && l.job.output.resumeOffset >= 0
    && InStep(l, disk, resource)
  }

  /** The step is one this server and this file system allow. */
  predicate Plays(l: Live, disk: Disk, a: Label, resource: string) {
    Enabled(l, a) && (a.Begin? ==> Conforms(BeginAttempt(l.job, disk, a.begin).0.job, resource, a.finalStatus, a.body))
  }

  lemma BeginStaysPrefix(l: Live, disk: Disk, begin: BeginAnswers, body: string, status: int, resource: string)
    requires LiveInv(l) && DownloadInv(l, disk, resource) && CanBegin(l)
    requires Conforms(BeginAttempt(l.job, disk, begin).0.job, resource, status, body)
    ensures var (l', disk') := DoBegin(l, disk, begin, body, status);
            && DownloadInv(l', disk', resource)
            && (l'.job.attached ==>
                  Part(l') in disk' && |disk'[Part(l')]| == match RangeStart(l'.job) case None => 0 case Some(k) => k)
  {
    hide LiveInv, BeginAttempt;
    BeginShape(l.job, disk, begin) by { NotRunning(l); }
    BeginFiles(l.job, disk, begin) by { NotRunning(l); }
    var existing := if l.job.spec.resume then SizeOf(disk, Part(l)) else -1;
    if existing > 0 {
      assert disk[Part(l)] + resource[existing..] == resource;
    }
    assert "" + resource == resource;
  }

  /** The part file of an attempt that has begun, and the offset it asks for. */
  lemma BeginFiles(j: Job, disk: Disk, begin: BeginAnswers)
    requires j.spec.outputPath != "" && !j.finished && !j.attached
    ensures var (o, disk') := BeginAttempt(j, disk, begin);
            var part := PartOf(j.spec);
            var kept := j.spec.resume && SizeOf(disk, part) > 0;
            && (o.job.attached ==>
                  && o.job.output.partPath == part && part in disk' && disk'[part] == (if kept then disk[part] else "")
                  && o.job.output.resumeOffset == |disk'[part]|)
            && (o.job.output.resumeOffset == j.output.resumeOffset || o.job.output.resumeOffset >= 0)
            && !o.job.output.restartedFullBody
            && (part in disk' ==> disk'[part] == "" || (part in disk && disk'[part] == disk[part]))
  {
    hide Finish;
    FinishKeepsOutput();
  }

  lemma FinishKeepsOutput()
    ensures forall k: Job, status :: Finish(k, status).job.output == k.output
    ensures forall k: Job, status :: Finish(k, status).job.attached == k.attached
  {
  }

  lemma NotRunning(l: Live)
    requires LiveInv(l) && CanBegin(l)
    ensures !l.job.finished && !l.job.attached
  {
  }

  /** Error-body bytes go to memory; the file is not touched. */
  lemma ErrorBytesStayOut(l: Live, disk: Disk, n: nat, io: WriteAnswers, resource: string)
    requires LiveInv(l) && DownloadInv(l, disk, resource) && CanWrite(l, n, io) && !IsSuccess(l.wire.status)
    ensures var (l', disk') := DoWrite(l, disk, n, io); disk' == disk && DownloadInv(l', disk', resource)
  {
    hide LiveInv, WriteMemory, WriteFile, WriteStream;
    assert !l.job.finished && l.job.attempt > 0 by { Running(l); }
    MemoryShape(l.job, l.wire.remaining[..n]);
  }

  /** Appending the next bytes of the resource, or starting it over, keeps a prefix of it on disk. */
  lemma FileBytesExtendPrefix(l: Live, disk: Disk, n: nat, io: WriteAnswers, resource: string)
    requires LiveInv(l) && DownloadInv(l, disk, resource) && CanWrite(l, n, io) && IsSuccess(l.wire.status)
    ensures var (l', disk') := DoWrite(l, disk, n, io); DownloadInv(l', disk', resource)
  {
    hide LiveInv, WriteMemory, WriteStream;
    assert !l.job.finished && l.job.attempt > 0 by { Running(l); }
    var data := l.wire.remaining[..n];
    var rest := l.wire.remaining[n..];
    var before := if ServerIgnoredRange(l.job, l.wire.status) then "" else disk[Part(l)];
    NextBytes(before, l.wire.remaining, n, io.written, resource);
    FileShape(l.job, disk, data, l.wire.status, io);
  }

  lemma NextBytes(before: string, remaining: string, n: nat, written: nat, resource: string)
    requires before + remaining == resource && written <= n <= |remaining|
    ensures before + remaining[..n][..written] <= resource
    ensures written == n ==> before + remaining[..n][..written] + remaining[n..] == resource
    ensures |before + remaining[..n][..written]| == |before| + written
    ensures "" + remaining == remaining && "" + remaining[..n][..written] == remaining[..n][..written]
  {
    var data := remaining[..n];
    assert remaining == data + remaining[n..];
    assert resource == before + data + remaining[n..];
    assert before + data[..written] == resource[..|before| + written];
  }

  lemma WriteStaysPrefix(l: Live, disk: Disk, n: nat, io: WriteAnswers, resource: string)
    requires LiveInv(l) && DownloadInv(l, disk, resource) && CanWrite(l, n, io)
    ensures var (l', disk') := DoWrite(l, disk, n, io); DownloadInv(l', disk', resource)
  {
    hide LiveInv, DownloadInv, DoWrite;
    if IsSuccess(l.wire.status) {
      FileBytesExtendPrefix(l, disk, n, io, resource);
    } else {
      ErrorBytesStayOut(l, disk, n, io, resource);
    }
  }

  /** The end of an attempt: a success renames exactly the resource onto the output path, a retry
      leaves the prefix for the next attempt, a final 4xx removes it. */
  lemma FinishMovesWholeResource(l: Live, disk: Disk, d: DoneAnswers, resource: string)
    requires LiveInv(l) && DownloadInv(l, disk, resource) && CanFinish(l, d)
    ensures var (l', disk') := DoFinish(l, disk, d);
            && DownloadInv(l', disk', resource)
            && (DoneVerdict(l.job, disk, d) == End(Ok) ==>
                  l.job.spec.outputPath in disk' && disk'[l.job.spec.outputPath] == resource && Part(l) !in disk')
            && (DoneVerdict(l.job, disk, d) == End(HttpError) && 400 <= d.status < 500 ==> Part(l) !in disk')
            && (DoneVerdict(l.job, disk, d) == Retry ==> disk' == disk)
  {
    hide LiveInv, RetryDelay;
    assert !l.job.finished && l.job.attempt > 0 && !l.job.cancelRequested && l.job.easy by { Running(l); }
    DoneShape(l.job, disk, d);
    assert |Part(l)| > |l.job.spec.outputPath|;
    if DoneVerdict(l.job, disk, d) == End(Ok) {
      WholePart(l, disk, d, resource);
    }
  }

  /** A transfer that ended well has the whole resource on disk. */
  lemma WholePart(l: Live, disk: Disk, d: DoneAnswers, resource: string)
    requires LiveInv(l) && DownloadInv(l, disk, resource) && CanFinish(l, d)
    requires d.code == CurlOk && IsSuccess(d.status)
    ensures disk[Part(l)] == resource
  {
    hide LiveInv;
    assert !l.job.finished && l.job.attempt > 0 by { Running(l); }
    assert disk[Part(l)] + "" == disk[Part(l)];
  }

  lemma Running(l: Live)
    requires LiveInv(l) && l.job.attached
    ensures !l.job.finished && l.job.attempt > 0 && !l.job.cancelRequested && l.job.easy
  {
  }

  /** The steps that touch neither the file nor the transfer's bytes. */
  lemma OtherStepsLeaveFile(l: Live, disk: Disk, a: Label, resource: string)
    requires LiveInv(l) && DownloadInv(l, disk, resource) && Enabled(l, a)
    requires a.HeaderLine? || a.Tick? || a.Consumed? || a.CancelNow?
    ensures Step(l, disk, a).1 == disk && DownloadInv(Step(l, disk, a).0, disk, resource)
  {
    hide LiveInv, OnHeaderLine, PostProgress, OnStreamConsumed, Cancel;
    match a {
      case HeaderLine(line, status) => HeaderLineShape(l.job, line, status);
      case Tick(now, dltotal, dlnow, ultotal, ulnow) => TickShape(l.job, now, dltotal, dlnow, ultotal, ulnow);
      case Consumed(bytes) => ConsumedShape(l.job, bytes);
      case CancelNow =>
        CancelShape(l.job);
        if l.job.attached {
          Running(l);
        }
    }
  }

  lemma StepKeepsDownload(l: Live, disk: Disk, a: Label, resource: string)
    requires LiveInv(l) && DownloadInv(l, disk, resource) && Plays(l, disk, a, resource)
    ensures DownloadInv(Step(l, disk, a).0, Step(l, disk, a).1, resource)
  {
    hide LiveInv, DownloadInv, DoBegin, DoWrite, DoFinish;
    match a {
      case Begin(begin, body, status) => BeginStaysPrefix(l, disk, begin, body, status, resource);
      case Write(n, io) => WriteStaysPrefix(l, disk, n, io, resource);
      case Done(d) => FinishMovesWholeResource(l, disk, d, resource);
      case _ => OtherStepsLeaveFile(l, disk, a, resource);
    }
  }

  /** A new download job; a part file it is to resume holds a prefix of the resource. */
  predicate Begins(l: Live, disk: Disk, resource: string) {
    && l == Fresh(l.job.spec, l.maxWrite) && l.job.spec.outputPath != ""
    && (l.job.spec.resume && Part(l) in disk ==> disk[Part(l)] <= resource)
  }

  lemma BeginsHolds(l: Live, disk: Disk, resource: string)
    requires Begins(l, disk, resource)
    ensures LiveInv(l) && DownloadInv(l, disk, resource)
  {
    FreshJobHolds(l.job.spec, l.maxWrite);
    hide LiveInv;
  }

  /** A run of one download job: its steps, and the job and the disk between them. */
  ghost predicate DownloadRun(lives: seq<Live>, disks: seq<Disk>, steps: seq<Label>, resource: string) {
    && |lives| == |disks| == |steps| + 1
    && Begins(lives[0], disks[0], resource)
    && forall i :: 0 <= i < |steps| ==>
         Plays(lives[i], disks[i], steps[i], resource)
         && (lives[i + 1], disks[i + 1]) == Step(lives[i], disks[i], steps[i])
  }

  /** Over any number of attempts, interrupted at any byte: while a download is under way its part file is
      a prefix of the resource and as long as the counters say. */
  lemma {:induction false} RunKeepsDownload(
    lives: seq<Live>, disks: seq<Disk>, steps: seq<Label>, resource: string, i: nat)
    requires DownloadRun(lives, disks, steps, resource) && i <= |steps|
    ensures LiveInv(lives[i]) && DownloadInv(lives[i], disks[i], resource)
    ensures lives[i].job.spec == lives[0].job.spec
  {
    hide LiveInv, DownloadInv, Step, Enabled, Conforms, Begins;
    if i == 0 {
      BeginsHolds(lives[0], disks[0], resource);
    } else {
      RunKeepsDownload(lives, disks, steps, resource, i - 1);
      StepKeeps(lives[i - 1], disks[i - 1], steps[i - 1]);
      StepKeepsSpec(lives[i - 1], disks[i - 1], steps[i - 1]);
      StepKeepsDownload(lives[i - 1], disks[i - 1], steps[i - 1], resource);
    }
  }

  /** If there is a part file, it is a prefix of the resource. */
  predicate Clean(l: Live, disk: Disk, resource: string) {
    Part(l) in disk ==> disk[Part(l)] <= resource
  }

  /** No step of a download, its last one included, leaves a part file that is not a prefix, unless it was
      there before and no transfer has begun. */
  lemma StepKeepsClean(l: Live, disk: Disk, a: Label, resource: string)
    requires LiveInv(l) && DownloadInv(l, disk, resource) && Plays(l, disk, a, resource)
    ensures var (l', disk') := Step(l, disk, a);
            (l.job.attached || Clean(l, disk, resource) || l'.job.attached ==> Clean(l', disk', resource))
  {
    StepKeepsSpec(l, disk, a);
    match a {
      case Begin(begin, body, status) => BeginLeavesClean(l, disk, begin, body, status, resource);
      case Write(n, io) => WriteLeavesClean(l, disk, n, io, resource);
      case Done(d) => DoneLeavesClean(l, disk, d, resource);
      case _ =>
        OtherStepsLeaveFile(l, disk, a, resource);
        AttachedIsClean(l, disk, resource);
        hide Step;
    }
  }

  lemma AttachedIsClean(l: Live, disk: Disk, resource: string)
    requires LiveInv(l) && DownloadInv(l, disk, resource)
    ensures l.job.attached ==> Clean(l, disk, resource)
  {
    if l.job.attached {
      Running(l);
    }
    hide LiveInv;
  }

  lemma BeginLeavesClean(l: Live, disk: Disk, begin: BeginAnswers, body: string, status: int, resource: string)
    requires LiveInv(l) && DownloadInv(l, disk, resource) && CanBegin(l)
    requires Conforms(BeginAttempt(l.job, disk, begin).0.job, resource, status, body)
    ensures var (l', disk') := DoBegin(l, disk, begin, body, status);
            Clean(l, disk, resource) || l'.job.attached ==> Clean(l', disk', resource)
  {
    hide LiveInv, BeginAttempt, Conforms;
    BeginStaysPrefix(l, disk, begin, body, status, resource);
    NotRunning(l);
    BeginShape(l.job, disk, begin);
    BeginFiles(l.job, disk, begin);
  }

  lemma WriteLeavesClean(l: Live, disk: Disk, n: nat, io: WriteAnswers, resource: string)
    requires LiveInv(l) && DownloadInv(l, disk, resource) && CanWrite(l, n, io)
    ensures var (l', disk') := DoWrite(l, disk, n, io); Clean(l', disk', resource)
  {
    hide LiveInv, DoWrite, DownloadInv;
    var (l', disk') := DoWrite(l, disk, n, io);
    WriteStaysPrefix(l, disk, n, io, resource);
    StepKeeps(l, disk, Write(n, io));
    WriteStaysAttached(l, disk, n, io);
    AttachedIsClean(l', disk', resource);
  }

  lemma WriteStaysAttached(l: Live, disk: Disk, n: nat, io: WriteAnswers)
    requires CanWrite(l, n, io)
    ensures DoWrite(l, disk, n, io).0.job.attached
  {
    hide WriteMemory, WriteFile, WriteStream, SinkFor;
    var data := l.wire.remaining[..n];
    MemoryShape(l.job, data);
    FileShape(l.job, disk, data, l.wire.status, io);
    StreamShape(l.job, data);
  }

  lemma DoneLeavesClean(l: Live, disk: Disk, d: DoneAnswers, resource: string)
    requires LiveInv(l) && DownloadInv(l, disk, resource) && CanFinish(l, d)
    ensures var (l', disk') := DoFinish(l, disk, d); Clean(l', disk', resource)
  {
    hide LiveInv, DownloadInv, DoneVerdict, RetryDelay, CanFinish, Clean;
    DoneShape(l.job, disk, d);
    DoneRemovesOrKeeps(l, disk, d, resource);
    DoneWasAttached(l, d);
    AttachedIsClean(l, disk, resource);
    SameFileIsClean(l, disk, DoFinish(l, disk, d).0, DoFinish(l, disk, d).1, resource);
  }

  lemma DoneWasAttached(l: Live, d: DoneAnswers)
    requires CanFinish(l, d)
    ensures l.job.attached
  {
  }

  lemma SameFileIsClean(l: Live, disk: Disk, l': Live, disk': Disk, resource: string)
    requires Clean(l, disk, resource) && Part(l') == Part(l)
    requires Part(l) in disk' ==> Part(l) in disk && disk'[Part(l)] == disk[Part(l)]
    ensures Clean(l', disk', resource)
  {
  }

  /** The end of an attempt changes the part file only by removing it. */
  lemma DoneRemovesOrKeeps(l: Live, disk: Disk, d: DoneAnswers, resource: string)
    requires LiveInv(l) && DownloadInv(l, disk, resource) && CanFinish(l, d)
    ensures var disk' := DoFinish(l, disk, d).1;
            Part(l) in disk' ==> Part(l) in disk && disk'[Part(l)] == disk[Part(l)]
  {
    hide LiveInv, DoneVerdict, RetryDelay;
    Running(l);
    assert |Part(l)| > |l.job.spec.outputPath|;
  }

  /** The part file over the whole life of a download, finished or not, with or without resume: if there was
      none or a prefix of the resource to begin with, or once a transfer has begun, it is a prefix of the
      resource in every state, and so never holds a byte of an error body. */
  lemma {:induction false} PartStaysPrefix(
    lives: seq<Live>, disks: seq<Disk>, steps: seq<Label>, resource: string, i: nat)
    requires DownloadRun(lives, disks, steps, resource) && i <= |steps|
    ensures Clean(lives[0], disks[0], resource) ==> Clean(lives[i], disks[i], resource)
    ensures (exists k :: 0 <= k <= i && lives[k].job.attached) ==> Clean(lives[i], disks[i], resource)
    ensures Part(lives[i]) == Part(lives[0])
  {
    hide LiveInv, DownloadInv, Step, Enabled, Conforms, Begins, Clean;
    RunKeepsDownload(lives, disks, steps, resource, i);
    if i > 0 {
      PartStaysPrefix(lives, disks, steps, resource, i - 1);
      RunKeepsDownload(lives, disks, steps, resource, i - 1);
      StepKeepsClean(lives[i - 1], disks[i - 1], steps[i - 1], resource);
    } else {
      AttachedIsClean(lives[0], disks[0], resource);
    }
  }

  /** So a later request for the same file may resume from what any earlier one left behind. */
  lemma NextRequestMayResume(
    lives: seq<Live>, disks: seq<Disk>, steps: seq<Label>, resource: string, i: nat, spec: RequestSpec, maxWrite: nat)
    requires DownloadRun(lives, disks, steps, resource) && i <= |steps|
    requires Clean(lives[0], disks[0], resource) || exists k :: 0 <= k <= i && lives[k].job.attached
    requires spec.outputPath == lives[0].job.spec.outputPath
    ensures Begins(Fresh(spec, maxWrite), disks[i], resource)
  {
    PartStaysPrefix(lives, disks, steps, resource, i);
    hide DownloadRun;
  }

  /** A download that ends Ok has put exactly the resource at the output path, and no part file is left. */
  lemma DownloadedFileIsResource(lives: seq<Live>, disks: seq<Disk>, steps: seq<Label>, resource: string, i: nat)
    requires DownloadRun(lives, disks, steps, resource) && i < |steps| && steps[i].Done?
    requires DoneVerdict(lives[i].job, disks[i], steps[i].done) == End(Ok)
    ensures var out := lives[i].job.spec.outputPath;
            out in disks[i + 1] && disks[i + 1][out] == resource && PartOf(lives[i].job.spec) !in disks[i + 1]
  {
    hide LiveInv, DownloadInv, DoFinish, Enabled, DoneVerdict, CanFinish, Conforms;
    RunKeepsDownload(lives, disks, steps, resource, i);
    DoneIsEnabled(lives[i], disks[i], steps[i], resource);
    FinishMovesWholeResource(lives[i], disks[i], steps[i].done, resource);
  }

  lemma DoneIsEnabled(l: Live, disk: Disk, a: Label, resource: string)
    requires Plays(l, disk, a, resource) && a.Done?
    ensures Enabled(l, a) && CanFinish(l, a.done)
  {
  }

  // ---------------------------------------------------------------- a part file that is already whole

  /** What a server that honours ranges answers: the suffix, or, when the range starts at or behind the
      end, 416 (section 15.5.17 of RFC 9110). */
  function HonouredStatus(j: Job, resource: string): int {
    match RangeStart(j)
    case None => 200
    case Some(k) => if k < |resource| then 206 else 416
  }

  /** Resume is documented to continue a part file. Against a server that honours ranges an attempt that is
      answered ends the download well exactly when its part file was shorter than the resource, as its Range
      header tells; a part file that was already whole is deleted and the download ends as HttpError. */
  lemma ResumeSucceedsIff(l: Live, disk: Disk, d: DoneAnswers, resource: string)
    requires LiveInv(l) && DownloadInv(l, disk, resource) && CanFinish(l, d)
    requires d.code == CurlOk && d.renameOk && l.wire.status == HonouredStatus(l.job, resource)
    ensures var (l', disk') := DoFinish(l, disk, d);
            && (DoneVerdict(l.job, disk, d) == End(Ok) <==>
                  RangeStart(l.job).None? || RangeStart(l.job).value < |resource|)
            && (RangeStart(l.job).Some? && RangeStart(l.job).value >= |resource| ==>
                  && DoneVerdict(l.job, disk, d) == End(HttpError)
                  && disk' == disk - {Part(l)} && l'.job.finished)
  {
    hide LiveInv, RetryDelay;
    Running(l);
  }

  const WHOLE_SPEC := RequestSpec(7, "f", true, false, false, Config(3, 1024, 16384, 100, true))
  const WHOLE_DISK: Disk := map["f.part" := "x"]

  /** The only attempt of a resumed download whose part file is whole, at some point of the answer 416. */
  function Asked(wire: Wire, lines: nat): Live {
    Live(NewJob(WHOLE_SPEC).(attempt := 1, easy := true, attached := true, output := Output("f.part", true, 1, false)),
         wire, 16384, [], "", 0, [], lines)
  }

  const REQUESTED := Asked(Wire("", "", 416, false, false, false, false), 0)
  const REFUSED := Asked(Wire("", "", 416, true, false, false, false), 1)
  const TOLD := Asked(Wire("", "", 416, true, true, false, false), 1)
  const OPENED := Begin(BeginAnswers(true, true, true, true), "", 416)
  const LINE_416 := HeaderLine("HTTP/1.1 416", 416)
  const BLANK := HeaderLine("", 416)
  const ANSWERED_416 := Done(DoneAnswers(CurlOk, 416, 5, 0, true))

  lemma FirstAsks()
    ensures Plays(Fresh(WHOLE_SPEC, 16384), WHOLE_DISK, OPENED, "x")
    ensures Step(Fresh(WHOLE_SPEC, 16384), WHOLE_DISK, OPENED).0 == REQUESTED
    ensures Step(Fresh(WHOLE_SPEC, 16384), WHOLE_DISK, OPENED).1 == WHOLE_DISK
  {
    assert PartOf(WHOLE_SPEC) == "f.part";
  }

  lemma ThenRefused()
    ensures Plays(REQUESTED, WHOLE_DISK, LINE_416, "x") && Step(REQUESTED, WHOLE_DISK, LINE_416).0 == REFUSED
    ensures Step(REQUESTED, WHOLE_DISK, LINE_416).1 == WHOLE_DISK
  {
    assert IsStatusLine("HTTP/1.1 416");
  }

  lemma ThenTold()
    ensures Plays(REFUSED, WHOLE_DISK, BLANK, "x") && Step(REFUSED, WHOLE_DISK, BLANK).0 == TOLD
    ensures Step(REFUSED, WHOLE_DISK, BLANK).1 == WHOLE_DISK
  {
    assert !IsStatusLine("") && Trim("") == "";
  }

  lemma ThenDeleted()
    ensures Plays(TOLD, WHOLE_DISK, ANSWERED_416, "x") && Step(TOLD, WHOLE_DISK, ANSWERED_416).1 == map[]
    ensures Step(TOLD, WHOLE_DISK, ANSWERED_416).0.job.finished
    ensures Step(TOLD, WHOLE_DISK, ANSWERED_416).0.history == [Complete(7, HttpError, 416, [], "", 0)]
  {
  }

  /** A run in which the whole resource is on disk as a part file, and resuming throws it away. */
  lemma WholePartIsLost() returns (lives: seq<Live>, disks: seq<Disk>, steps: seq<Label>)
    ensures DownloadRun(lives, disks, steps, "x") && |steps| == 4
    ensures disks[0] == map["f.part" := "x"] && disks[4] == map[]
    ensures lives[4].job.finished && lives[4].history == [Complete(7, HttpError, 416, [], "", 0)]
  {
    FirstAsks();
    ThenRefused();
    ThenTold();
    ThenDeleted();
    WholeBegins();
    hide Step, Plays, Asked, Fresh, Begins;
    lives := [Fresh(WHOLE_SPEC, 16384), REQUESTED, REFUSED, TOLD, Step(TOLD, WHOLE_DISK, ANSWERED_416).0];
    disks := [WHOLE_DISK, WHOLE_DISK, WHOLE_DISK, WHOLE_DISK, map[]];
    steps := [OPENED, LINE_416, BLANK, ANSWERED_416];
    forall i | 0 <= i < 4
      ensures Plays(lives[i], disks[i], steps[i], "x")
          && (lives[i + 1], disks[i + 1]) == Step(lives[i], disks[i], steps[i])
    {
      if i == 0 {
      } else if i == 1 {
      } else if i == 2 {
      } else {
      }
    }
  }

  lemma WholeBegins()
    ensures Begins(Fresh(WHOLE_SPEC, 16384), WHOLE_DISK, "x")
  {
    assert PartOf(WHOLE_SPEC) == "f.part";
  }
}
