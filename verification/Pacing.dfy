/** How often the plugin is called: coalesced data (src/job.cpp:630-665, 893-897) and throttled
    progress (src/job.cpp:722-750). */
module Pacing {
  import opened Text
  import opened Events
  import opened JobSpec
  import opened Live

  // ---------------------------------------------------------------- data events

  lemma {:induction false} FullChunksCost(h: seq<Event>, chunk: nat)
    requires forall i :: 0 <= i < |h| && h[i].Data? ==> |h[i].body| >= chunk
    ensures chunk * CountData(h) <= |DataOf(h)|
  {
    if h != [] {
      FullChunksCost(h[..|h| - 1], chunk);
      var n := CountData(h[..|h| - 1]);
      assert chunk * (n + 1) == chunk * n + chunk;
    }
  }

  /** A body of n bytes costs at most n / chunkSize + 1 OnData calls. */
  lemma DataEventsAreFew(l: Live)
    requires LiveInv(l) && Chunk(l) > 0
    ensures CountData(l.history) <= |DataOf(l.history)| / Chunk(l) + 1
  {
    hide WellFormed, DataOf, CountData;
    CountOfWellFormed(l.history, l.job.spec.id, l.job.finished, Chunk(l), l.maxWrite);
  }

  lemma CountOfWellFormed(h: seq<Event>, id: int, finished: bool, chunk: nat, maxWrite: nat)
    requires WellFormed(h, id, finished, chunk, maxWrite) && chunk > 0
    ensures CountData(h) <= |DataOf(h)| / chunk + 1
  {
    if |h| < 2 {
      AtMostOne(h);
      assert |DataOf(h)| / chunk >= 0;
    } else if !finished {
      FullChunksCost(h, chunk);
      CountFromCost(CountData(h), |DataOf(h)|, chunk);
    } else {
      var init := h[..|h| - 2];
      var last := h[|h| - 2];
      FullChunksCost(init, chunk);
      LastTwo(init, last, h[|h| - 1], h);
      hide DataOf, CountData, WellFormed;
      CountFromCost(CountData(init), |DataOf(h)|, chunk);
    }
  }

  lemma LastTwo(init: seq<Event>, e: Event, c: Event, h: seq<Event>)
    requires |h| == |init| + 2 && h[..|init|] == init && h[|init|] == e && h[|init| + 1] == c && c.Complete?
    ensures CountData(h) <= CountData(init) + 1 && |DataOf(h)| >= |DataOf(init)|
  {
    assert h[..|h| - 1] == init + [e];
    Snoc(init, e);
  }

  lemma AtMostOne(h: seq<Event>)
    requires |h| <= 1
    ensures CountData(h) <= 1
  {
    if |h| == 1 {
      assert h[..0] == [];
    }
  }

  lemma CountFromCost(count: nat, bytes: nat, chunk: nat)
    requires chunk > 0 && chunk * count <= bytes
    ensures count <= bytes / chunk
  {
    if count > bytes / chunk {
      assert chunk * count >= chunk * (bytes / chunk + 1) by { MulKeepsOrder(chunk, bytes / chunk + 1, count); }
      assert false;
    }
  }

  lemma MulKeepsOrder(k: nat, a: nat, b: nat)
    requires a <= b
    ensures k * a <= k * b
  {
  }

  // ---------------------------------------------------------------- the chunk size

  const MIN_CHUNK := 1024
  const CURL_MAX_READ_SIZE := 10 * 1024 * 1024

  /** The size curl's buffer gets, which is the size the documentation promises for coalescing. */
  function DocumentedChunk(chunkSize: int): int {
    Max(MIN_CHUNK, Min(CURL_MAX_READ_SIZE, chunkSize))
  }

  /** The code coalesces at the documented size exactly when the property was set within its range. */
  lemma CoalescesAsDocumentedIff(chunkSize: int)
    requires -0x8000_0000 <= chunkSize < 0x8000_0000
    ensures SizeT(chunkSize) == DocumentedChunk(chunkSize) <==> MIN_CHUNK <= chunkSize <= CURL_MAX_READ_SIZE
  {
  }

  /** A stream whose body is shorter than one chunk is handed on only at its end: until then nothing was
      posted, nothing is pending, and the transfer is not paused. */
  lemma ShortStreamWaits(l: Live)
    requires LiveInv(l) && !l.job.finished && |l.wire.body| < Chunk(l)
    ensures forall i :: 0 <= i < |l.history| ==> !l.history[i].Data?
    ensures l.job.stream == Stream(l.accepted, 0, false)
  {
    hide DataOf, CountHeaders;
    forall i | 0 <= i < |l.history| ensures !l.history[i].Data? {
      if l.history[i].Data? {
        DataAtLeast(l.history, i);
      }
    }
    NoDataPosted(l.history);
    assert "" + l.job.stream.buffer == l.job.stream.buffer;
  }

  lemma {:induction false} NoDataPosted(h: seq<Event>)
    ensures (forall i :: 0 <= i < |h| ==> !h[i].Data?) ==> DataOf(h) == ""
  {
    if h != [] {
      NoDataPosted(h[..|h| - 1]);
    }
  }

  /** Set to -1, the threshold is 4 GiB: over any run, a stream of less than that is buffered whole while it
      comes in, none of it is handed on, and, as nothing is pending, it is never paused. */
  lemma NegativeChunkBuffersAll(lives: seq<Live>, disks: seq<Disk>, steps: seq<Label>, i: nat)
    requires LiveRun(lives, disks, steps) && i <= |steps| && lives[0].job.spec.config.chunkSize == -1
    requires !lives[i].job.finished && |lives[i].wire.body| < 0xFFFF_FFFF
    ensures forall k :: 0 <= k < |lives[i].history| ==> !lives[i].history[k].Data?
    ensures lives[i].job.stream == Stream(lives[i].accepted, 0, false)
  {
    hide LiveInv, Step, Enabled;
    LiveRunKeeps(lives, disks, steps, i);
    ShortStreamWaits(lives[i]);
  }

  // ---------------------------------------------------------------- progress events

  /** One call of the progress callback. */
  datatype Tock = Tock(now: int, dltotal: int, dlnow: int, ultotal: int, ulnow: int)

  predicate Completes(t: Tock) {
    (t.dltotal > 0 && t.dlnow >= t.dltotal) || (t.ultotal > 0 && t.ulnow >= t.ultotal)
  }

  /** The progress callback, if the step is one. */
  function CallOf(a: Label): seq<Tock> {
    match a
    case Tick(now, dltotal, dlnow, ultotal, ulnow) => [Tock(now, dltotal, dlnow, ultotal, ulnow)]
    case _ => []
  }

  /** The same, if it posts a Progress event. */
  function ReportOf(l: Live, a: Label): seq<Tock> {
    match a
    case Tick(now, dltotal, dlnow, ultotal, ulnow) =>
      if PostsProgress(l.job, now, dltotal, dlnow, ultotal, ulnow) then CallOf(a) else []
    case _ => []
  }

  /** All of them in the steps from `from` up to `to`. */
  function Calls(steps: seq<Label>, from: nat, to: nat): seq<Tock>
    requires from <= to <= |steps|
  {
    if from == to then [] else Calls(steps, from, to - 1) + CallOf(steps[to - 1])
  }

  function Reports(lives: seq<Live>, steps: seq<Label>, from: nat, to: nat): seq<Tock>
    requires from <= to <= |steps| <= |lives|
  {
    if from == to then [] else Reports(lives, steps, from, to - 1) + ReportOf(lives[to - 1], steps[to - 1])
  }

  /** The steps between, of whatever kind, belong to one attempt. */
  predicate OneAttempt(steps: seq<Label>, from: nat, to: nat)
    requires from <= to <= |steps|
  {
    forall k :: from <= k < to ==> !steps[k].Begin?
  }

  /** Header lines, body writes, credits and the end of an attempt leave the time of the last report alone. */
  lemma OnlyReportsMoveTheClock(l: Live, disk: Disk, a: Label)
    requires LiveInv(l) && Enabled(l, a) && !a.Begin?
    ensures Step(l, disk, a).0.job.response.lastProgress
         == if ReportOf(l, a) == [] then l.job.response.lastProgress else ReportOf(l, a)[0].now
    ensures ReportOf(l, a) != [] && !Completes(ReportOf(l, a)[0]) ==>
              ReportOf(l, a)[0].now - l.job.response.lastProgress >= l.job.spec.config.progressInterval
    ensures |ReportOf(l, a)| <= 1
  {
    match a {
      case HeaderLine(line, status) => HeaderClock(l.job, line, status);
      case Write(n, io) => WriteClock(l.job, disk, l.wire.remaining[..n], l.wire.status, io);
      case Done(d) => DoneClock(l.job, disk, d);
      case _ =>
    }
    hide OnHeaderLine, OnWrite, OnAttemptDone, OnStreamConsumed, LiveInv;
  }

  lemma HeaderClock(j: Job, line: string, status: int)
    ensures OnHeaderLine(j, line, status).job.response.lastProgress == j.response.lastProgress
  {
    hide Trim, HeaderOf, OnHeadersComplete, IsStatusLine;
    CompleteShape(j, status);
  }

  lemma WriteClock(j: Job, disk: Disk, data: string, status: int, io: WriteAnswers)
    requires io.written <= |data|
    ensures OnWrite(j, disk, data, status, io).0.job.response.lastProgress == j.response.lastProgress
  {
    hide SinkFor, WriteMemory, WriteFile, WriteStream;
    MemoryClock(j, data);
    FileClock(j, disk, data, status, io);
    StreamClock(j, data);
  }

  lemma MemoryClock(j: Job, data: string)
    ensures WriteMemory(j, data).0.response.lastProgress == j.response.lastProgress
  {
    hide MemoryCap;
  }

  lemma FileClock(j: Job, disk: Disk, data: string, status: int, io: WriteAnswers)
    requires io.written <= |data|
    ensures WriteFile(j, disk, data, status, io).0.response.lastProgress == j.response.lastProgress
  {
  }

  lemma StreamClock(j: Job, data: string)
    ensures WriteStream(j, data).0.job.response.lastProgress == j.response.lastProgress
  {
    hide SizeT;
  }

  lemma DoneClock(j: Job, disk: Disk, d: DoneAnswers)
    ensures OnAttemptDone(j, disk, d).0.job.response.lastProgress == j.response.lastProgress
  {
    hide DoneVerdict, DiskAfterDone, RetryDelay;
  }

  /** In one attempt of any run, whatever else happens in it, a Progress event posted while neither direction
      is complete comes at least progressInterval after the previous one. */
  lemma {:induction false} ProgressIsThrottled(
    lives: seq<Live>, disks: seq<Disk>, steps: seq<Label>, from: nat, to: nat)
    requires LiveRun(lives, disks, steps) && from <= to <= |steps| && OneAttempt(steps, from, to)
    ensures var p := Reports(lives, steps, from, to);
            && lives[to].job.response.lastProgress
               == (if p == [] then lives[from].job.response.lastProgress else p[|p| - 1].now)
            && (forall k :: 0 < k < |p| && !Completes(p[k]) ==>
                  p[k].now - p[k - 1].now >= lives[0].job.spec.config.progressInterval)
  {
    hide LiveInv, Step, Enabled, ReportOf, Completes, LiveRun;
    SizesOfRun(lives, disks, steps);
    if from < to {
      ProgressIsThrottled(lives, disks, steps, from, to - 1);
      StepOfRun(lives, disks, steps, to - 1);
      OnlyReportsMoveTheClock(lives[to - 1], disks[to - 1], steps[to - 1]);
      var report := ReportOf(lives[to - 1], steps[to - 1]);
      var p := Reports(lives, steps, from, to - 1);
      assert Reports(lives, steps, from, to) == p + report;
      hide Reports, OneAttempt;
      ReportSnoc(p, report, lives[from].job.response.lastProgress, lives[to - 1].job.response.lastProgress,
                 lives[0].job.spec.config.progressInterval);
    }
  }

  lemma SizesOfRun(lives: seq<Live>, disks: seq<Disk>, steps: seq<Label>)
    requires LiveRun(lives, disks, steps)
    ensures |lives| == |disks| == |steps| + 1
  {
  }

  lemma StepOfRun(lives: seq<Live>, disks: seq<Disk>, steps: seq<Label>, i: nat)
    requires LiveRun(lives, disks, steps) && i < |steps|
    ensures LiveInv(lives[i]) && lives[i].job.spec == lives[0].job.spec
    ensures Enabled(lives[i], steps[i]) && lives[i + 1] == Step(lives[i], disks[i], steps[i]).0
  {
    hide LiveInv, Step, Enabled;
    LiveRunKeeps(lives, disks, steps, i);
  }

  lemma ReportSnoc(p: seq<Tock>, report: seq<Tock>, start: int, last: int, interval: int)
    requires |report| <= 1 && last == (if p == [] then start else p[|p| - 1].now)
    requires report != [] && !Completes(report[0]) ==> report[0].now - last >= interval
    requires forall k :: 0 < k < |p| && !Completes(p[k]) ==> p[k].now - p[k - 1].now >= interval
    ensures var p' := p + report;
            && (if p' == [] then start else p'[|p'| - 1].now) == (if report == [] then last else report[0].now)
            && forall k :: 0 < k < |p'| && !Completes(p'[k]) ==> p'[k].now - p'[k - 1].now >= interval
  {
    hide Completes;
    var p' := p + report;
    forall k | 0 < k < |p'| && !Completes(p'[k]) ensures p'[k].now - p'[k - 1].now >= interval {
      if k < |p| {
        assert p'[k] == p[k] && p'[k - 1] == p[k - 1];
      }
    }
  }

  /** So n such events in one attempt take at least n - 1 intervals. */
  lemma {:induction false} ProgressPerWindow(
    lives: seq<Live>, disks: seq<Disk>, steps: seq<Label>, from: nat, to: nat, n: nat)
    requires LiveRun(lives, disks, steps) && from <= to <= |steps| && OneAttempt(steps, from, to)
    requires 0 < n <= |Reports(lives, steps, from, to)|
    requires forall k :: 0 <= k < n ==> !Completes(Reports(lives, steps, from, to)[k])
    ensures (n - 1) * lives[0].job.spec.config.progressInterval
         <= Reports(lives, steps, from, to)[n - 1].now - Reports(lives, steps, from, to)[0].now
  {
    hide Step, Enabled, Reports, Completes;
    ProgressIsThrottled(lives, disks, steps, from, to);
    if n > 1 {
      ProgressPerWindow(lives, disks, steps, from, to, n - 1);
      var i := lives[0].job.spec.config.progressInterval;
      assert (n - 1) * i == (n - 2) * i + i;
    }
  }

  function Completions(calls: seq<Tock>): seq<Tock> {
    if calls == [] then []
    else Completions(calls[..|calls| - 1]) + (if Completes(calls[|calls| - 1]) then [calls[|calls| - 1]] else [])
  }

  lemma CompletionsOfMore(calls: seq<Tock>, more: seq<Tock>)
    requires |more| <= 1
    ensures Completions(calls + more) == Completions(calls) + Completions(more)
  {
    if more == [] {
      assert calls + more == calls;
    } else {
      assert (calls + more)[..|calls|] == calls && more[..0] == [];
    }
  }

  /** The documentation promises one report when a direction completes. The code reports every call that
      libcurl makes in a completed state, so over any stretch of any run there is one such report exactly
      when there is one such call. */
  lemma {:induction false} CompletionReportedOnceIff(
    lives: seq<Live>, disks: seq<Disk>, steps: seq<Label>, from: nat, to: nat)
    requires LiveRun(lives, disks, steps) && from <= to <= |steps|
    ensures Completions(Reports(lives, steps, from, to)) == Completions(Calls(steps, from, to))
    ensures |Completions(Reports(lives, steps, from, to))| == 1 <==> |Completions(Calls(steps, from, to))| == 1
  {
    hide Step, Enabled, ReportOf, CallOf, Completions;
    if from < to {
      CompletionReportedOnceIff(lives, disks, steps, from, to - 1);
      CompletionIsReported(lives[to - 1], steps[to - 1]);
      CompletionsOfMore(Reports(lives, steps, from, to - 1), ReportOf(lives[to - 1], steps[to - 1]));
      CompletionsOfMore(Calls(steps, from, to - 1), CallOf(steps[to - 1]));
    }
  }

  lemma CompletionIsReported(l: Live, a: Label)
    ensures |ReportOf(l, a)| <= 1 && |CallOf(a)| <= 1 && Completions(ReportOf(l, a)) == Completions(CallOf(a))
  {
    assert forall t: Tock :: [t][..0] == [];
  }

  /** Two calls in the same millisecond, both complete: two Progress events. */
  lemma CompletionIsReportedAgain(l: Live, disk: Disk, now: int, total: int)
    requires l.job.attached && total > 0
    ensures var a := Tick(now, total, total, 0, 0);
            && Enabled(l, a) && Enabled(Step(l, disk, a).0, a)
            && |Step(Step(l, disk, a).0, disk, a).0.history| == |l.history| + 2
            && Step(Step(l, disk, a).0, disk, a).0.history[|l.history|].Progress?
            && Step(Step(l, disk, a).0, disk, a).0.history[|l.history| + 1].Progress?
  {
    var a := Tick(now, total, total, 0, 0);
    assert PostsProgress(l.job, now, total, total, 0, 0);
    assert PostsProgress(Step(l, disk, a).0.job, now, total, total, 0, 0);
  }
}
