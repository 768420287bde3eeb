/** The in-memory body: what is kept does not depend on how libcurl splits it (src/job.cpp:583-600). */
module MemorySink {
  import opened Text
  import opened Events
  import opened JobSpec
  import opened Live

  /** Write callbacks for one piece after the other, until one is refused. */
  function WriteAll(j: Job, pieces: seq<string>): (Job, bool)
    decreases |pieces|
  {
    if pieces == [] then (j, true)
    else
      var (j1, r) := WriteMemory(j, pieces[0]);
      if r == Wrote(|pieces[0]|) then WriteAll(j1, pieces[1..]) else (j1, false)
  }

  function Join(pieces: seq<string>): string {
    if pieces == [] then "" else pieces[0] + Join(pieces[1..])
  }

  /** A primary body is kept whole when it fits under the cap. Otherwise the transfer is refused as too
      large, and what is kept is a prefix within the cap. */
  lemma {:induction false} PrimaryBodyIsWholeOrRefused(j: Job, pieces: seq<string>)
    requires Primary(j.spec) && |j.response.body| <= MemoryCap(j.spec)
    ensures var (after, ok) := WriteAll(j, pieces);
            var whole := j.response.body + Join(pieces);
            && (ok <==> |whole| <= MemoryCap(j.spec))
            && (ok ==> after == j.(response := j.response.(body := whole,
                                                           bodyLength := j.response.bodyLength + |Join(pieces)|)))
            && (!ok ==> after.response.tooLarge && after.response.body <= whole
                        && |after.response.body| <= MemoryCap(j.spec))
    decreases |pieces|
  {
    if pieces == [] {
      assert j.response.body + "" == j.response.body;
    } else {
      var rest := Join(pieces[1..]);
      FirstPiece(j, pieces[0], rest);
      var (j1, r) := WriteMemory(j, pieces[0]);
      hide WriteMemory, MemoryCap;
      if r == Wrote(|pieces[0]|) {
        PrimaryBodyIsWholeOrRefused(j1, pieces[1..]);
      }
    }
  }

  /** One write: taken whole while it fits, refused without a trace otherwise. */
  lemma FirstPiece(j: Job, piece: string, rest: string)
    requires Primary(j.spec) && |j.response.body| <= MemoryCap(j.spec)
    ensures var (j1, r) := WriteMemory(j, piece);
            && (r == Wrote(|piece|) <==> |j.response.body + piece| <= MemoryCap(j.spec))
            && j1 == j.(response := j1.response)
            && (r == Wrote(|piece|) ==>
                  j1.response == j.response.(body := j.response.body + piece, bodyLength := j.response.bodyLength
                      + |piece|))
            && (r != Wrote(|piece|) ==> j1.response == j.response.(tooLarge := true))
    ensures (j.response.body + piece) + rest == j.response.body + (piece + rest)
    ensures j.response.body <= j.response.body + (piece + rest)
  {
    assert piece[..|piece|] == piece;
  }

  function Take(s: string, n: nat): string {
    if |s| <= n then s else s[..n]
  }

  /** An error body of a file or stream job is never refused: its first 64 KiB are kept, all of it is counted. */
  lemma {:induction false} ErrorBodyKeepsItsHead(j: Job, pieces: seq<string>)
    requires !Primary(j.spec) && |j.response.body| <= MAX_ERROR_BODY
    ensures var (after, ok) := WriteAll(j, pieces);
            && ok
            && after == j.(response := j.response.(
                             body := Take(j.response.body + Join(pieces), 65536),
                             bodyLength := j.response.bodyLength + |Join(pieces)|))
    decreases |pieces|
  {
    if pieces != [] {
      var (j1, r) := WriteMemory(j, pieces[0]);
      ErrorBodyKeepsItsHead(j1, pieces[1..]);
      var rest := Join(pieces[1..]);
      assert Take(j1.response.body + rest, MAX_ERROR_BODY) == Take(j.response.body + (pieces[0]
          + rest), MAX_ERROR_BODY);
    } else {
      assert j.response.body + "" == j.response.body;
    }
  }

  /** The cap is maxBodySize when that is a size; a negative one becomes a huge cap. */
  lemma CapIsMaxBodySize(j: Job)
    requires Primary(j.spec)
    ensures 0 <= j.spec.config.maxBodySize < 0x1_0000_0000 ==> MemoryCap(j.spec) == j.spec.config.maxBodySize
    ensures -0x8000_0000 <= j.spec.config.maxBodySize < 0 ==> MemoryCap(j.spec) >= 0x8000_0000
  {
  }

  // ---------------------------------------------------------------- over a whole run

  /** While the response of an in-memory request comes in: what is kept and what is still to come make up
      the body, and a write is refused, and flagged, only for a body over the cap. */
  predicate MemoryOk(l: Live) {
    Primary(l.job.spec) && l.job.attached ==>
      && l.job.response.body + l.wire.remaining == l.wire.body
      && |l.job.response.body| <= MemoryCap(l.job.spec)
      && (l.wire.aborted <==> l.job.response.tooLarge)
      && (l.wire.aborted ==> |l.wire.body| > MemoryCap(l.job.spec))
  }

  lemma WriteKeepsMemory(l: Live, disk: Disk, n: nat, io: WriteAnswers)
    requires LiveInv(l) && MemoryOk(l) && CanWrite(l, n, io) && Primary(l.job.spec)
    ensures MemoryOk(DoWrite(l, disk, n, io).0)
  {
    hide LiveInv, MemoryCap;
    var data, rest := l.wire.remaining[..n], l.wire.remaining[n..];
    assert l.wire.remaining == data + rest;
    FirstPiece(l.job, data, rest);
  }

  lemma StepKeepsMemory(l: Live, disk: Disk, a: Label)
    requires LiveInv(l) && MemoryOk(l) && Enabled(l, a)
    ensures MemoryOk(Step(l, disk, a).0)
  {
    hide MemoryCap, WellFormed, DataOf;
    match a {
      case Begin(begin, body, _) =>
        BeginShape(l.job, disk, begin);
        assert "" + body == body;
        hide BeginAttempt;
      case HeaderLine(line, status) =>
        HeaderLineKeepsBody(l.job, line, status);
        HeaderLineShape(l.job, line, status);
        hide OnHeaderLine;
      case Write(n, io) =>
        if Primary(l.job.spec) {
          WriteKeepsMemory(l, disk, n, io);
        } else {
          WriteShape(l.job, disk, l.wire.remaining[..n], l.wire.status, io);
        }
        hide DoWrite, OnWrite;
      case Tick(_, _, _, _, _) =>
      case Consumed(_) =>
      case Done(d) =>
        DoneDetaches(l.job, disk, d);
        hide OnAttemptDone;
      case CancelNow =>
    }
  }

  lemma HeaderLineKeepsBody(j: Job, line: string, status: int)
    ensures var r := OnHeaderLine(j, line, status).job.response;
            r.body == j.response.body && r.tooLarge == j.response.tooLarge
  {
    hide Trim, HeaderOf, OnHeadersComplete, IsStatusLine;
    CompleteShape(j, status);
  }

  lemma DoneDetaches(j: Job, disk: Disk, d: DoneAnswers)
    requires j.attached && j.easy
    ensures !OnAttemptDone(j, disk, d).0.job.attached
  {
    hide DoneVerdict, DiskAfterDone, RetryDelay;
  }

  lemma {:induction false} RunKeepsMemory(lives: seq<Live>, disks: seq<Disk>, steps: seq<Label>, i: nat)
    requires LiveRun(lives, disks, steps) && i <= |steps|
    ensures LiveInv(lives[i]) && MemoryOk(lives[i])
  {
    hide Step, Enabled, LiveInv;
    if i == 0 {
      FreshJobHolds(lives[0].job.spec, lives[0].maxWrite);
    } else {
      RunKeepsMemory(lives, disks, steps, i - 1);
      StepKeeps(lives[i - 1], disks[i - 1], steps[i - 1]);
      StepKeepsMemory(lives[i - 1], disks[i - 1], steps[i - 1]);
      hide MemoryOk;
    }
  }

  /** The documentation's cap, end to end. In every run of an in-memory request an attempt ends as
      TooLarge exactly when a write was refused, which happens only to a body over the cap; and when it
      ends with a response, the body handed to the plugin is the whole body, and fits. */
  lemma InMemoryOutcome(lives: seq<Live>, disks: seq<Disk>, steps: seq<Label>, i: nat)
    requires LiveRun(lives, disks, steps) && i < |steps| && steps[i].Done? && Primary(lives[i].job.spec)
    ensures var l, d, verdict := lives[i], steps[i].done, DoneVerdict(lives[i].job, disks[i], steps[i].done);
            && (verdict == End(TooLarge) <==> l.wire.aborted)
            && (verdict == End(TooLarge) ==> |l.wire.body| > MemoryCap(l.job.spec))
            && (verdict == End(TooLarge) ==> EndsWith(lives[i + 1].history, TooLarge))
            && (verdict == End(Ok) || verdict == End(HttpError) ==>
                  l.job.response.body == l.wire.body && |l.wire.body| <= MemoryCap(l.job.spec)
                  && EndsWith(lives[i + 1].history, verdict.status)
                  && lives[i + 1].history[|lives[i + 1].history| - 1].body == l.wire.body)
  {
    RunKeepsMemory(lives, disks, steps, i);
    var l, d := lives[i], steps[i].done;
    assert Enabled(l, steps[i]) && (lives[i + 1], disks[i + 1]) == Step(l, disks[i], steps[i]);
    hide LiveRun;
    OutcomeOf(l, disks[i], d);
    hide MemoryOk, LiveInv, DoFinish, DoneVerdict;
  }

  predicate EndsWith(events: seq<Event>, status: RestStatus) {
    events != [] && events[|events| - 1].Complete? && events[|events| - 1].status == status
  }

  lemma OutcomeOf(l: Live, disk: Disk, d: DoneAnswers)
    requires LiveInv(l) && MemoryOk(l) && CanFinish(l, d) && Primary(l.job.spec)
    ensures var verdict, h := DoneVerdict(l.job, disk, d), DoFinish(l, disk, d).0.history;
            && (verdict == End(TooLarge) <==> l.wire.aborted)
            && (verdict == End(TooLarge) ==> |l.wire.body| > MemoryCap(l.job.spec))
            && (verdict == End(TooLarge) ==> EndsWith(h, TooLarge))
            && (verdict == End(Ok) || verdict == End(HttpError) ==>
                  l.job.response.body == l.wire.body && |l.wire.body| <= MemoryCap(l.job.spec)
                  && EndsWith(h, verdict.status) && h[|h| - 1].body == l.wire.body)
  {
    hide WellFormed, DataOf, MemoryCap, DiskAfterDone, RetryDelay;
    assert l.job.response.body + "" == l.job.response.body;
    assert !l.job.cancelRequested && !l.job.finished;
    VerdictOf(l, disk, d);
    EndPosts(AfterTransfer(l.job, d.status));
    hide DoneVerdict, EndAttempt, LiveInv;
  }

  lemma VerdictOf(l: Live, disk: Disk, d: DoneAnswers)
    requires MemoryOk(l) && CanFinish(l, d) && Primary(l.job.spec) && !l.job.cancelRequested
    ensures DoneVerdict(l.job, disk, d) == End(TooLarge) <==> l.wire.aborted
    ensures DoneVerdict(l.job, disk, d) in {End(Ok), End(HttpError)} ==> d.code == CurlOk
  {
    hide MemoryCap;
  }

  /** Whatever the verdict, the last event is Complete with that status and the body kept. */
  lemma EndPosts(j: Job)
    requires !j.finished
    ensures forall status :: EndsWith(EndAttempt(j, status).posts, status)
    ensures forall status :: var h := EndAttempt(j, status).posts;
              && h != [] && h[|h| - 1].Complete?
              && h[|h| - 1].body == j.response.body && h[|h| - 1].bodyLength == j.response.bodyLength
  {
  }

  // ---------------------------------------------------------------- error bodies of the other requests

  /** What has come of the response's body. */
  function Got(w: Wire): string {
    if |w.remaining| <= |w.body| then w.body[..|w.body| - |w.remaining|] else ""
  }

  /** While an error response to a file or stream request comes in, the first 64 KiB of what has come are
      kept, and all of it is counted. */
  predicate HeadOk(l: Live) {
    !Primary(l.job.spec) && l.job.attached && !IsSuccess(l.wire.status) ==>
      && Got(l.wire) + l.wire.remaining == l.wire.body && !l.wire.aborted
      && l.job.response.body == Take(Got(l.wire), MAX_ERROR_BODY)
      && l.job.response.bodyLength == |Got(l.wire)|
  }

  lemma WriteKeepsHead(l: Live, disk: Disk, n: nat, io: WriteAnswers)
    requires LiveInv(l) && HeadOk(l) && CanWrite(l, n, io)
    ensures HeadOk(DoWrite(l, disk, n, io).0)
  {
    hide LiveInv, Got;
    if IsSuccess(l.wire.status) || Primary(l.job.spec) {
      WriteShape(l.job, disk, l.wire.remaining[..n], l.wire.status, io);
      hide OnWrite;
    } else {
      ErrorWriteKeepsHead(l, disk, n, io);
      hide DoWrite, HeadOk;
    }
  }

  lemma ErrorWriteKeepsHead(l: Live, disk: Disk, n: nat, io: WriteAnswers)
    requires HeadOk(l) && CanWrite(l, n, io) && !IsSuccess(l.wire.status) && !Primary(l.job.spec)
    ensures HeadOk(DoWrite(l, disk, n, io).0)
  {
    hide WriteMemory, Take, Got;
    var data := l.wire.remaining[..n];
    MoreGot(l.wire, n);
    HeadGrows(l.job, Got(l.wire), data);
    MemoryShape(l.job, data);
    GotOf(DoWrite(l, disk, n, io).0.wire, l.wire.(remaining := l.wire.remaining[n..]));
  }

  lemma MoreGot(w: Wire, n: nat)
    requires n <= |w.remaining| && Got(w) + w.remaining == w.body
    ensures var w' := w.(remaining := w.remaining[n..]);
            Got(w') == Got(w) + w.remaining[..n] && Got(w') + w'.remaining == w.body
  {
    var w' := w.(remaining := w.remaining[n..]);
    assert w.remaining == w.remaining[..n] + w.remaining[n..];
    assert Got(w') == Got(w) + w.remaining[..n];
  }

  lemma GotOf(a: Wire, b: Wire)
    requires a.body == b.body && a.remaining == b.remaining
    ensures Got(a) == Got(b)
  {
  }

  lemma HeadGrows(j: Job, got: string, data: string)
    requires !Primary(j.spec) && j.response.body == Take(got, MAX_ERROR_BODY) && j.response.bodyLength == |got|
    ensures var (j', r) := WriteMemory(j, data);
            && r == Wrote(|data|)
            && j'.response.body == Take(got + data, MAX_ERROR_BODY) && j'.response.bodyLength == |got + data|
  {
  }

  lemma StepKeepsHead(l: Live, disk: Disk, a: Label)
    requires LiveInv(l) && HeadOk(l) && Enabled(l, a)
    ensures HeadOk(Step(l, disk, a).0)
  {
    hide WellFormed, DataOf;
    match a {
      case Begin(begin, body, _) =>
        BeginShape(l.job, disk, begin);
        assert body[..|body| - |body|] == "" && "" + body == body;
        hide BeginAttempt;
      case HeaderLine(line, status) =>
        HeaderLineKeepsBody(l.job, line, status);
        HeaderLineShape(l.job, line, status);
        hide OnHeaderLine, Got;
      case Write(n, io) =>
        WriteKeepsHead(l, disk, n, io);
        hide DoWrite, HeadOk;
      case Tick(_, _, _, _, _) => hide Got;
      case Consumed(_) => hide Got;
      case Done(d) =>
        DoneDetaches(l.job, disk, d);
        hide OnAttemptDone, Got;
      case CancelNow => hide Got;
    }
  }

  lemma {:induction false} RunKeepsHead(lives: seq<Live>, disks: seq<Disk>, steps: seq<Label>, i: nat)
    requires LiveRun(lives, disks, steps) && i <= |steps|
    ensures LiveInv(lives[i]) && HeadOk(lives[i])
  {
    hide Step, Enabled, LiveInv;
    if i == 0 {
      FreshJobHolds(lives[0].job.spec, lives[0].maxWrite);
    } else {
      RunKeepsHead(lives, disks, steps, i - 1);
      StepKeeps(lives[i - 1], disks[i - 1], steps[i - 1]);
      StepKeepsHead(lives[i - 1], disks[i - 1], steps[i - 1]);
      hide HeadOk;
    }
  }

  /** In every run of a file or stream request that ends as HttpError, the completion carries the first
      64 KiB of the error body, and its full length. */
  lemma ErrorBodyOutcome(lives: seq<Live>, disks: seq<Disk>, steps: seq<Label>, i: nat)
    requires LiveRun(lives, disks, steps) && i < |steps| && steps[i].Done? && !Primary(lives[i].job.spec)
    requires DoneVerdict(lives[i].job, disks[i], steps[i].done) == End(HttpError)
    ensures var body, h := lives[i].wire.body, lives[i + 1].history;
            && EndsWith(h, HttpError)
            && h[|h| - 1].body == Take(body, 65536) && h[|h| - 1].bodyLength == |body|
  {
    RunKeepsHead(lives, disks, steps, i);
    var l, d := lives[i], steps[i].done;
    assert Enabled(l, steps[i]) && (lives[i + 1], disks[i + 1]) == Step(l, disks[i], steps[i]);
    hide LiveRun;
    ErrorOutcomeOf(l, disks[i], d);
    hide HeadOk, LiveInv, DoFinish, DoneVerdict;
  }

  lemma ErrorOutcomeOf(l: Live, disk: Disk, d: DoneAnswers)
    requires LiveInv(l) && HeadOk(l) && CanFinish(l, d) && !Primary(l.job.spec)
    requires DoneVerdict(l.job, disk, d) == End(HttpError)
    ensures var body, h := l.wire.body, DoFinish(l, disk, d).0.history;
            && EndsWith(h, HttpError)
            && h[|h| - 1].body == Take(body, 65536) && h[|h| - 1].bodyLength == |body|
  {
    hide WellFormed, DataOf, DiskAfterDone, RetryDelay, Take;
    assert !l.job.cancelRequested && !l.job.finished;
    ErrorMeansAnswered(l, disk, d);
    assert l.wire.body[..|l.wire.body|] == l.wire.body;
    EndPosts(AfterTransfer(l.job, d.status));
    hide DoneVerdict, EndAttempt, LiveInv;
  }

  lemma ErrorMeansAnswered(l: Live, disk: Disk, d: DoneAnswers)
    requires CanFinish(l, d) && !l.job.cancelRequested && DoneVerdict(l.job, disk, d) == End(HttpError)
    ensures d.code == CurlOk && !IsSuccess(d.status)
  {
  }
}
