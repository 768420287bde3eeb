/** What the invariant of the two-thread system means for a plugin, for every run. */
module SystemTheorems {
  import opened Events
  import opened JobSpec
  import opened Live
  import opened MainThread
  import opened System

  /** Stream bytes of one job that are posted, handed out or on their way back as credit. */
  function Outstanding(s: Sys, id: int): int {
    |DataOf(Of(s.queue, id))| + |DataOf(Of(s.batch, id))| + InHand(s, id)
    + SumFor(s.credits, id) + SumFor(s.workCredits, id)
  }

  /** The bytes of a job's history split along the channel. */
  lemma ChannelBytes(s: Sys, id: int)
    requires id in s.jobs && PipeOk(SliceOf(s, id))
    ensures DataOf(s.jobs[id].live.history)
         == DataOf(s.jobs[id].taken) + DataOf(Of(s.batch, id)) + DataOf(Of(s.queue, id))
  {
    hide DataOf, Of, SumFor;
    DataOfConcat(s.jobs[id].taken + Of(s.batch, id), Of(s.queue, id));
    DataOfConcat(s.jobs[id].taken, Of(s.batch, id));
  }

  /** Credit conservation: while the record lives, the worker's counter of pending stream bytes is
      exactly the bytes queued, drained, in the plugin's hands, and unapplied credit. */
  lemma CreditConservation(states: seq<Sys>, moves: seq<Move>, i: nat, id: int)
    requires SystemRun(states, moves) && i <= |moves|
    requires id in states[i].jobs
    ensures !states[i].jobs[id].live.job.finished && id in states[i].main.records ==>
              states[i].jobs[id].live.job.stream.pending == Outstanding(states[i], id)
    ensures states[i].jobs[id].live.job.stream.pending >= Outstanding(states[i], id) >= 0
  {
    RunKeeps(states, moves, i);
    hide SystemRun;
    CreditIn(states[i], id);
  }

  lemma CreditIn(s: Sys, id: int)
    requires Inv(s) && id in s.jobs
    ensures !s.jobs[id].live.job.finished && id in s.main.records ==>
        s.jobs[id].live.job.stream.pending == Outstanding(s, id)
    ensures s.jobs[id].live.job.stream.pending >= Outstanding(s, id) >= 0
  {
    hide DataOf, Of, SumFor, ListsOk;
    assert SliceOk(SliceOf(s, id), id);
    CreditOf(s.jobs[id].live);
    hide LiveInv;
    ChannelBytes(s, id);
    PrefixData(s.jobs[id].dispatched, s.jobs[id].taken);
  }

  lemma CreditOf(l: Live)
    requires LiveInv(l)
    ensures l.job.stream.pending == StreamedTotal(l) - l.credited
  {
  }

  /** The counter is reset only when it is already zero: a new attempt finds an empty stream. */
  lemma ResetOnlyResetsZero(states: seq<Sys>, moves: seq<Move>, i: nat, id: int)
    requires SystemRun(states, moves) && i <= |moves|
    requires id in states[i].jobs && CanBegin(states[i].jobs[id].live)
    ensures states[i].jobs[id].live.job.stream == EMPTY_STREAM
  {
    RunKeeps(states, moves, i);
    hide SystemRun, ListsOk, CanBegin, LiveInv;
    assert SliceOk(SliceOf(states[i], id), id);
    ResetIsIdle(states[i].jobs[id].live);
  }

  /** The clamp at zero never bites: a consume message is never more than the counter. */
  lemma ClampNeverBites(states: seq<Sys>, moves: seq<Move>, i: nat)
    requires SystemRun(states, moves) && i <= |moves|
    requires states[i].pc == Crediting && states[i].workCredits != []
    ensures CanCreditNext(states[i])
    ensures FindActive(states[i], states[i].workCredits[0].0) ==>
              states[i].workCredits[0].1 <= states[i].jobs[states[i].workCredits[0].0].live.job.stream.pending
  {
    RunKeeps(states, moves, i);
    hide SystemRun, Inv, CanCreditNext, FindActive;
    CreditFits(states[i]);
  }

  lemma CreditFits(s: Sys)
    requires Inv(s) && s.pc == Crediting && s.workCredits != []
    ensures CanCreditNext(s)
    ensures FindActive(s, s.workCredits[0].0) ==>
              s.workCredits[0].1 <= s.jobs[s.workCredits[0].0].live.job.stream.pending
  {
    hide ListsOk, LiveInv, Of, SumFor, DataOf;
    CreditIsOutstanding(s);
    PositiveCredit(s);
    var id := s.workCredits[0].0;
    if FindActive(s, id) {
      assert JobOk(SliceOf(s, id).entry, id);
      CreditOf(s.jobs[id].live);
    }
  }

  lemma PositiveCredit(s: Sys)
    requires Inv(s) && s.workCredits != []
    ensures s.workCredits[0].1 > 0
  {
    hide SliceOk, SliceOf;
  }

  lemma ResetIsIdle(l: Live)
    requires LiveInv(l) && CanBegin(l)
    ensures l.job.stream == EMPTY_STREAM
  {
    hide WellFormed;
    assert DataOf(l.history) + l.job.stream.buffer == "";
    assert |DataOf(l.history)| + |l.job.stream.buffer| == 0;
  }

  /** Stream exactness: for a live record, what OnData got, what is drained, what is queued and what is
      buffered is, in this order, exactly what was accepted from libcurl; and that is a prefix of the body. */
  lemma StreamExactness(states: seq<Sys>, moves: seq<Move>, i: nat, id: int)
    requires SystemRun(states, moves) && i <= |moves| && id in states[i].jobs && id in states[i].main.records
    ensures var e := states[i].jobs[id];
            && e.live.accepted <= e.live.wire.body
            && DataOf(e.dispatched) + DataOf(Of(states[i].batch, id)) + DataOf(Of(states[i].queue, id))
               + e.live.job.stream.buffer == e.live.accepted
  {
    RunKeeps(states, moves, i);
    hide SystemRun, DataOf, Of, SumFor, ListsOk;
    var s := states[i];
    assert SliceOk(SliceOf(s, id), id);
    AcceptedOf(s.jobs[id].live);
    hide LiveInv;
    ChannelBytes(s, id);
  }

  lemma AcceptedOf(l: Live)
    requires LiveInv(l)
    ensures l.accepted <= l.wire.body && DataOf(l.history) <= l.accepted
    ensures DataOf(l.history) + l.job.stream.buffer == l.accepted
  {
    hide WellFormed, DataOf;
  }

  /** A Complete event can only be the last event of a job, and it is there once the job is finished. */
  lemma CompletionOf(l: Live)
    requires LiveInv(l)
    ensures l.job.finished <==> EndsWithComplete(l.history)
    ensures forall k :: 0 <= k < |l.history| - 1 ==> !l.history[k].Complete?
    ensures EndsOk(l.history) && Streaming(l.job.spec) ==>
              DataOf(l.history) == l.wire.body
  {
    hide DataOf, Credit, Bounded, HeadersOnce, Retries;
  }

  /** Exactly-once delivery: at every point the callbacks dispatched for a job are a prefix of the
      events it posted; a job whose record is gone without having been dropped got all of them, ending
      in its only completion, and a stream that ended Ok got the whole body. */
  lemma ExactlyOnceDelivery(states: seq<Sys>, moves: seq<Move>, i: nat, id: int)
    requires SystemRun(states, moves) && i <= |moves| && id in states[i].jobs
    ensures var e := states[i].jobs[id];
            && e.dispatched <= e.live.history
            && DataOf(e.dispatched) <= e.live.wire.body
            && (forall k :: 0 <= k < |e.dispatched| && e.dispatched[k].Complete? ==> k == |e.live.history| - 1)
            && (id in states[i].main.records ==> !EndsWithComplete(e.dispatched))
            && (id !in states[i].main.records && !e.dropped ==>
                  && e.dispatched == e.live.history && EndsWithComplete(e.dispatched)
                  && (Streaming(e.live.job.spec) && EndsOk(e.dispatched) ==>
                        DataOf(e.dispatched) == e.live.wire.body))
  {
    RunKeeps(states, moves, i);
    hide SystemRun, DataOf, Of, SumFor, ListsOk;
    var s := states[i];
    var e := s.jobs[id];
    assert SliceOk(SliceOf(s, id), id);
    hide LiveInv;
    AcceptedOf(e.live);
    CompletionOf(e.live);
    assert e.taken <= e.live.history;
    PrefixData(e.dispatched, e.live.history);
  }

  /** The event grammar, in every state of every run. The events a job has posted carry its id and form a word
      of (Progress|Headers)* (Progress|Data)* Complete?, which ends in Complete exactly when the job is
      finished; Headers comes at most once for each status line; only the last Data of a finished job can be
      shorter than a chunk, and none is as long as a chunk and a write together. */
  lemma EventGrammar(states: seq<Sys>, moves: seq<Move>, i: nat, id: int)
    requires SystemRun(states, moves) && i <= |moves| && id in states[i].jobs
    ensures var l := states[i].jobs[id].live;
            var h := l.history;
            && (forall k :: 0 <= k < |h| ==> h[k].id == id)
            && (forall j, k :: 0 <= j < |h| && 0 <= k < |h| && h[j].Headers? && h[k].Data? ==> j < k)
            && (forall k :: 0 <= k < |h| && h[k].Complete? ==> k == |h| - 1)
            && (l.job.finished <==> EndsWithComplete(h))
            && CountHeaders(h) <= l.statusLines
            && (forall k :: 0 <= k < |h| && h[k].Data? ==>
                  && 0 < |h[k].body| < Max(1, Chunk(l)) + l.maxWrite
                  && (|h[k].body| >= Chunk(l) || (l.job.finished && k == |h| - 2)))
  {
    hide Can, Next, Of, SumFor, ListsOk, LiveInv;
    RunKeeps(states, moves, i);
    assert JobOk(SliceOf(states[i], id).entry, id);
    GrammarOf(states[i].jobs[id].live);
  }

  lemma GrammarOf(l: Live)
    requires LiveInv(l)
    ensures var h := l.history;
            && (forall k :: 0 <= k < |h| ==> h[k].id == l.job.spec.id)
            && (forall j, k :: 0 <= j < |h| && 0 <= k < |h| && h[j].Headers? && h[k].Data? ==> j < k)
            && (forall k :: 0 <= k < |h| && h[k].Complete? ==> k == |h| - 1)
            && (l.job.finished <==> EndsWithComplete(h))
            && CountHeaders(h) <= l.statusLines
            && (forall k :: 0 <= k < |h| && h[k].Data? ==>
                  && 0 < |h[k].body| < Max(1, Chunk(l)) + l.maxWrite
                  && (|h[k].body| >= Chunk(l) || (l.job.finished && k == |h| - 2)))
  {
    hide DataOf, CountHeaders;
    var h := l.history;
    forall j, k | 0 <= j < |h| && 0 <= k < |h| && h[j].Headers? && h[k].Data? ensures j < k {
      if k < j {
        assert h[..j][k] == h[k];
        DataAtLeast(h[..j], k);
      }
    }
  }

  /** Once a job is finished and its events have left queue and batch, its record has been served. */
  lemma DrainedJobIsServed(states: seq<Sys>, moves: seq<Move>, i: nat, id: int)
    requires SystemRun(states, moves) && i <= |moves| && id in states[i].jobs
    requires states[i].jobs[id].live.job.finished
    requires Of(states[i].batch, id) == [] && Of(states[i].queue, id) == []
    ensures id !in states[i].main.records
  {
    RunKeeps(states, moves, i);
    hide SystemRun, DataOf, Of, SumFor, ListsOk;
    var s := states[i];
    assert SliceOk(SliceOf(s, id), id);
    hide LiveInv;
    CompletionOf(s.jobs[id].live);
    assert s.jobs[id].taken + [] + [] == s.jobs[id].taken;
  }

  /** After each turn of the worker only unfinished jobs are active: finished ones have left the list. */
  lemma OnlyUnfinishedJobsStay(states: seq<Sys>, moves: seq<Move>, i: nat, id: int)
    requires SystemRun(states, moves) && i <= |moves| && id in states[i].jobs
    requires states[i].pc == Polling && states[i].jobs[id].place == Active
    ensures !states[i].jobs[id].live.job.finished
    ensures states[i].jobs[id].live.job.attached != states[i].jobs[id].live.job.waitingForRetry
  {
    hide Can, Next, Of, SumFor, Tidy;
    RunKeeps(states, moves, i);
    assert ListsOk(states[i]);
    assert JobOk(SliceOf(states[i], id).entry, id);
    PlacedOf(states[i].jobs[id].live);
  }

  lemma PlacedOf(l: Live)
    requires LiveInv(l) && l.job.attempt > 0 && !l.job.finished
    ensures l.job.attached != l.job.waitingForRetry
  {
  }

  // ---------------------------------------------------------------- pause and resume

  /** A paused transfer is attached, and some of its bytes are on their way to come back as credit. */
  lemma PausedIsNotStuck(states: seq<Sys>, moves: seq<Move>, i: nat, id: int)
    requires SystemRun(states, moves) && i <= |moves| && id in states[i].jobs
    requires !states[i].jobs[id].live.job.finished && states[i].jobs[id].live.job.stream.paused
    ensures states[i].jobs[id].live.job.attached
    ensures id in states[i].main.records ==> Outstanding(states[i], id) >= 1048576
  {
    RunKeeps(states, moves, i);
    CreditConservation(states, moves, i, id);
    hide SystemRun;
    assert SliceOk(SliceOf(states[i], id), id);
    PausedOf(states[i].jobs[id].live);
  }

  lemma PausedOf(l: Live)
    requires LiveInv(l) && l.job.stream.paused && !l.job.finished
    ensures l.job.attached && l.job.stream.pending >= STREAM_LOW_WATER
  {
  }

  /** Distance of the outstanding bytes from being credited: each has five stations to go through. */
  function Distance(s: Sys, id: int): int {
    5 * |DataOf(Of(s.queue, id))| + 4 * |DataOf(Of(s.batch, id))| + 3 * InHand(s, id)
    + 2 * SumFor(s.credits, id) + SumFor(s.workCredits, id)
  }

  /** With nothing on the way, a job with a live record is not paused. */
  lemma NothingOutstandingMeansRunning(states: seq<Sys>, moves: seq<Move>, i: nat, id: int)
    requires SystemRun(states, moves) && i <= |moves| && id in states[i].jobs
    requires !states[i].jobs[id].live.job.finished && id in states[i].main.records && Distance(states[i], id) == 0
    ensures !states[i].jobs[id].live.job.stream.paused
  {
    RunKeeps(states, moves, i);
    hide SystemRun, Of, SumFor, DataOf, LiveInv, ListsOk;
    assert SliceOk(SliceOf(states[i], id), id);
    if states[i].jobs[id].live.job.stream.paused {
      PausedIsNotStuck(states, moves, i, id);
    }
  }

  /** The moves that carry a job's bytes one station further. */
  predicate Carries(s: Sys, a: Move, id: int) {
    match a
    case Drain => DataOf(Of(s.queue, id)) != ""
    case StartNext => s.batch != [] && s.batch[0].id == id && s.batch[0].Data?
    case EndCurrent(_) => InHand(s, id) > 0
    case TakePending => SumFor(s.credits, id) > 0
    case CreditNext => s.workCredits != [] && s.workCredits[0].0 == id
    case _ => false
  }

  /** The job is still paused behind a live record. */
  predicate StillPaused(s: Sys, id: int) {
    && id in s.jobs && id in s.main.records
    && !s.jobs[id].live.job.finished && s.jobs[id].live.job.stream.paused
  }

  lemma PausedPostsNoData(l: Live, disk: Disk, a: Label)
    requires LiveInv(l) && Enabled(l, a) && l.job.stream.paused && !l.job.finished && !a.Consumed?
    ensures Step(l, disk, a).0.job.finished || DataOf(Posts(l, Step(l, disk, a).0)) == ""
  {
    hide DataOf, WellFormed;
    var l' := Step(l, disk, a).0;
    StepGrowsHistory(l, disk, a);
    DataOfConcat(l.history, Posts(l, l'));
    PausedOf(l);
    assert l.job.attached && !l.job.waitingForRetry;
    PausedStreamStays(l, disk, a);
    if !l'.job.finished {
      CreditOf(l);
      CreditOf(l');
    }
  }

  lemma PausedStreamStays(l: Live, disk: Disk, a: Label)
    requires Enabled(l, a) && l.job.stream.paused && l.job.attached && !l.job.waitingForRetry && l.job.attempt > 0
    requires !a.Consumed?
    ensures Step(l, disk, a).0.job.finished || Step(l, disk, a).0.job.stream == l.job.stream
  {
    hide DoneVerdict, DiskAfterDone, RetryDelay, HeaderOf, PostsHeaders, PostsProgress;
  }

  lemma DistanceOfJobStep(s: Sys, k: int, a: Label, id: int)
    requires Inv(s) && CanJobStep(s, k, a) && !a.Consumed? && StillPaused(s, id)
    ensures StillPaused(DoJobStep(s, k, a), id) ==> Distance(DoJobStep(s, k, a), id) == Distance(s, id)
  {
    hide LiveInv, Step, Enabled, Of, SumFor, DataOf;
    JobStepSlice(s, k, a, id);
    if k == id {
      assert SliceOk(SliceOf(s, id), id);
      PausedPostsNoData(s.jobs[id].live, s.disk, a);
      var posts := Posts(s.jobs[id].live, Step(s.jobs[id].live, s.disk, a).0);
      DataOfConcat(Of(s.queue, id), posts);
    }
  }

  lemma DistanceOfDrain(s: Sys, id: int)
    requires CanDrain(s) && id in s.jobs
    ensures Distance(DoDrain(s), id) <= Distance(s, id)
    ensures DataOf(Of(s.queue, id)) != "" ==> Distance(DoDrain(s), id) < Distance(s, id)
  {
    hide SumFor;
    assert Of([], id) == [] && DataOf([]) == "";
    hide Of, DataOf;
  }

  lemma DistanceOfStartNext(s: Sys, id: int)
    requires CanStartNext(s) && Tidy(s.main) && id in s.jobs && id in s.main.records && !s.batch[0].Complete?
    ensures Distance(DoStartNext(s), id) <= Distance(s, id)
    ensures s.batch[0].id == id && s.batch[0].Data? && s.batch[0].body != "" ==>
              Distance(DoStartNext(s), id) < Distance(s, id)
  {
    hide SumFor, Of;
    var e := s.batch[0];
    OfHead(s.batch, id);
    if e.id == id {
      DataOfConcat([e], Of(s.batch[1..], id));
      assert DataOf([e]) == BodyOf(e) by { assert [e][..0] == []; }
      hide DataOf;
    } else {
      hide DataOf;
      assert Of(s.batch, id) == Of(s.batch[1..], id);
    }
  }

  lemma DistanceOfEndCurrent(s: Sys, handled: bool, id: int)
    requires CanEndCurrent(s) && id in s.jobs
    ensures Distance(DoEndCurrent(s, handled), id) <= Distance(s, id)
    ensures InHand(s, id) > 0 ==> Distance(DoEndCurrent(s, handled), id) < Distance(s, id)
  {
    hide SumFor, Of, DataOf;
    if s.main.phase.Dispatching? && s.main.phase.event.Data? {
      var c := (s.main.phase.event.id, |s.main.phase.event.body|);
      SumConcat(s.credits, [c], id);
      SumOfOne(c, id);
    }
  }

  lemma DistanceOfTakePending(s: Sys, id: int)
    requires ListsOk(s) && s.pc == Polling && id in s.jobs
    ensures Distance(DoTakePending(s), id) <= Distance(s, id)
    ensures SumFor(s.credits, id) > 0 ==> Distance(DoTakePending(s), id) < Distance(s, id)
  {
    SumOfNothing(id);
    SumOfNonNegative(s.credits, id);
    hide SumFor, Of, DataOf;
  }

  lemma DistanceOfCreditNext(s: Sys, id: int)
    requires Inv(s) && CanCreditNext(s) && id in s.jobs
    ensures id in DoCreditNext(s).jobs && Distance(DoCreditNext(s), id) <= Distance(s, id)
    ensures s.workCredits[0].0 == id ==> Distance(DoCreditNext(s), id) < Distance(s, id)
  {
    hide SumFor, Of, DataOf, LiveInv, Step, Enabled, SliceOk;
    var (k, bytes) := s.workCredits[0];
    SumHead(s.workCredits, id);
    PositiveCredit(s);
    if FindActive(s, k) {
      assert Step(s.jobs[k].live, s.disk, Consumed(bytes)).0.history == s.jobs[k].live.history by {
        ConsumePostsNothing(s.jobs[k].live, s.disk, bytes);
      }
      JobStepSlice(s, k, Consumed(bytes), id);
      JobStepFrame(s, k, Consumed(bytes));
      assert Posts(s.jobs[k].live, Step(s.jobs[k].live, s.disk, Consumed(bytes)).0) == [];
      assert Of(s.queue, id) + [] == Of(s.queue, id);
    }
  }

  lemma ConsumePostsNothing(l: Live, disk: Disk, bytes: nat)
    requires Enabled(l, Consumed(bytes))
    ensures Step(l, disk, Consumed(bytes)).0.history == l.history
  {
  }

  /** While a job with a live record stays paused, no move of either thread takes its bytes further
      away, and every drain, dispatch, return, pick-up and credit of its bytes brings them nearer. */
  lemma PausedBytesOnlyComeNearer(s: Sys, a: Move, id: int)
    requires Inv(s) && Can(s, a) && StillPaused(s, id)
    ensures StillPaused(Next(s, a), id) ==>
              Distance(Next(s, a), id) <= Distance(s, id)
              && (Carries(s, a, id) ==> Distance(Next(s, a), id) < Distance(s, id))
  {
    hide SumFor, Of, DataOf, LiveInv, SliceOk, CanJobStep, DoJobStep, Distance, DoTakePending, DoEndCurrent,
        DoDrain, DoCreditNext;
    match a {
      case Drain => DistanceOfDrain(s, id);
      case StartNext =>
        if !s.batch[0].Complete? {
          DistanceOfStartNext(s, id);
          BatchHead(s);
        } else {
          CompleteOfOther(s, id);
        }
      case EndCurrent(handled) => DistanceOfEndCurrent(s, handled, id);
      case TakePending => DistanceOfTakePending(s, id);
      case CreditNext => DistanceOfCreditNext(s, id);
      case JobStep(k, step) => DistanceOfJobStep(s, k, step, id);
      case CancelNext => DistanceOfCancelNext(s, id);
      case _ => DistanceOfOthers(s, a, id);
    }
  }

  lemma BatchHead(s: Sys)
    requires Inv(s) && CanStartNext(s)
    ensures s.batch[0].Data? ==> s.batch[0].body != ""
    ensures s.batch[0].Complete? ==> s.jobs[s.batch[0].id].live.job.finished
  {
    hide SumFor, DataOf, ListsOk;
    var e := s.batch[0];
    OfHead(s.batch, e.id);
    assert SliceOk(SliceOf(s, e.id), e.id);
    hide SliceOk, Of;
    HeadOfPipe(SliceOf(s, e.id), e.id, e, Of(s.batch[1..], e.id));
  }

  lemma CompleteOfOther(s: Sys, id: int)
    requires Inv(s) && CanStartNext(s) && s.batch[0].Complete? && StillPaused(s, id)
    ensures s.batch[0].id != id && Distance(DoStartNext(s), id) == Distance(s, id)
  {
    hide SumFor, Of, DataOf, Inv;
    BatchHead(s);
    OfHead(s.batch, id);
    assert Of(s.batch, id) == Of(s.batch[1..], id);
  }

  lemma DistanceOfCancelNext(s: Sys, id: int)
    requires Inv(s) && CanCancelNext(s) && StillPaused(s, id)
    ensures StillPaused(DoCancelNext(s), id) ==> Distance(DoCancelNext(s), id) == Distance(s, id)
  {
    hide SumFor, Of, DataOf, Inv, DoJobStep;
    if FindActive(s, s.workCancels[0]) {
      DistanceOfJobStep(s, s.workCancels[0], CancelNow, id);
    }
  }

  lemma DistanceOfOthers(s: Sys, a: Move, id: int)
    requires Inv(s) && Can(s, a) && StillPaused(s, id)
    requires a.Native? || a.Send? || a.CancelRequest? || a.Drop? || a.NextPhase?
    ensures StillPaused(Next(s, a), id) ==> Distance(Next(s, a), id) == Distance(s, id)
  {
    hide SumFor, Of, DataOf, SliceOk;
  }

  /** Memory held for a job's stream, running or finished, dropped or not, never reaches high water plus
      one chunk plus one write. */
  lemma BackpressureBound(states: seq<Sys>, moves: seq<Move>, i: nat, id: int)
    requires SystemRun(states, moves) && i <= |moves| && id in states[i].jobs
    ensures Outstanding(states[i], id) + |states[i].jobs[id].live.job.stream.buffer|
          < 4194304 + Chunk(states[i].jobs[id].live) + states[i].jobs[id].live.maxWrite
  {
    RunKeeps(states, moves, i);
    CreditConservation(states, moves, i, id);
    hide SystemRun;
    assert SliceOk(SliceOf(states[i], id), id);
    BoundOf(states[i].jobs[id].live);
  }

  lemma BoundOf(l: Live)
    requires LiveInv(l)
    ensures l.job.stream.pending + |l.job.stream.buffer| < STREAM_HIGH_WATER + Chunk(l) + l.maxWrite
  {
  }

  // ---------------------------------------------------------------- no step is ever refused

  /** The guards of the machine are not assumptions: whatever an operation needs, the invariant gives.
      A drained batch can be dispatched, a callback can return, a record can be dropped, and the worker
      can apply each cancel and each credit it took. */
  lemma NothingIsRefused(states: seq<Sys>, moves: seq<Move>, i: nat)
    requires SystemRun(states, moves) && i <= |moves|
    ensures var s := states[i];
            && (s.main.phase.Idle? && s.batch != [] ==> CanStartNext(s))
            && CanEndCurrent(s)
            && (forall id :: id in s.main.records ==> CanDrop(s, id))
            && (s.pc == Cancelling && s.workCancels != [] ==> CanCancelNext(s))
            && (s.pc == Crediting && s.workCredits != [] ==> CanCreditNext(s))
  {
    hide Next, Can, Inv, CanCancelNext, CanCreditNext;
    RunKeeps(states, moves, i);
    MainGuards(states[i]);
    if states[i].pc == Cancelling && states[i].workCancels != [] {
      CancelGuard(states[i]);
    }
    if states[i].pc == Crediting && states[i].workCredits != [] {
      CreditFits(states[i]);
    }
  }

  lemma MainGuards(s: Sys)
    requires Inv(s)
    ensures s.main.phase.Idle? && s.batch != [] ==> CanStartNext(s)
    ensures CanEndCurrent(s)
    ensures forall id :: id in s.main.records ==> CanDrop(s, id)
  {
    hide SliceOk, SliceOf;
  }

  lemma CancelGuard(s: Sys)
    requires Inv(s) && s.pc == Cancelling && s.workCancels != []
    ensures CanCancelNext(s)
  {
    hide LiveInv, PipeOk, CreditOk, RecordOk, Of, SumFor;
    var id := s.workCancels[0];
    if FindActive(s, id) {
      assert JobOk(SliceOf(s, id).entry, id);
      StartedOf(s.jobs[id].live);
    }
  }

  lemma StartedOf(l: Live)
    requires LiveInv(l)
    ensures l.job.attempt >= 0
  {
  }

  // ---------------------------------------------------------------- silence after drop

  lemma JobStepKeepsPast(s: Sys, k: int, a: Label, id: int)
    requires CanJobStep(s, k, a) && id in s.jobs
    ensures var s' := DoJobStep(s, k, a);
            id in s'.jobs && s'.jobs[id].dispatched == s.jobs[id].dispatched
                && s'.jobs[id].dropped == s.jobs[id].dropped
  {
    hide Step, Enabled;
  }

  lemma DroppedIsGone(s: Sys, id: int)
    requires Inv(s) && id in s.jobs && s.jobs[id].dropped
    ensures id < s.main.nextJobId && (s.main.phase.Idle? ==> id !in s.main.records)
  {
    hide JobOk, PipeOk, CreditOk, Of, SumFor;
    assert SliceOk(SliceOf(s, id), id);
    assert Tidy(s.main);
  }

  lemma DropIsSilent(s: Sys, a: Move, id: int)
    requires Inv(s) && Can(s, a) && id in s.jobs && s.jobs[id].dropped
    ensures id in Next(s, a).jobs && Next(s, a).jobs[id].dropped
    ensures Next(s, a).jobs[id].dispatched == s.jobs[id].dispatched
  {
    hide Inv, LiveInv, Step, Enabled, Of, SumFor, DataOf, Act, DoJobStep;
    DroppedIsGone(s, id);
    match a {
      case JobStep(k, step) => JobStepKeepsPast(s, k, step, id);
      case CancelNext => if FindActive(s, s.workCancels[0]) { JobStepKeepsPast(s, s.workCancels[0], CancelNow, id); }
      case CreditNext =>
        if FindActive(s, s.workCredits[0].0) {
          JobStepKeepsPast(s, s.workCredits[0].0, Consumed(s.workCredits[0].1), id);
        }
      case _ => hide StartEvent, EndEvent, DropJob, CancelJob;
    }
  }

  /** Once a job's record was dropped, even from inside one of its own callbacks, no further callback
      of it is ever dispatched, whatever is still queued or drained. */
  lemma {:induction false} SilenceAfterDrop(states: seq<Sys>, moves: seq<Move>, i: nat, j: nat, id: int)
    requires SystemRun(states, moves) && i <= j <= |moves|
    requires id in states[i].jobs && states[i].jobs[id].dropped
    ensures id in states[j].jobs && states[j].jobs[id].dropped
    ensures states[j].jobs[id].dispatched == states[i].jobs[id].dispatched
  {
    hide Inv, Can, Next;
    if i < j {
      SilenceAfterDrop(states, moves, i, j - 1, id);
      RunKeeps(states, moves, j - 1);
      DropIsSilent(states[j - 1], moves[j - 1], id);
    }
  }

  /** A job without a record is finished, or a cancel for it is pending. */
  lemma NoOrphanRunsOn(states: seq<Sys>, moves: seq<Move>, i: nat, id: int)
    requires SystemRun(states, moves) && i <= |moves| && id in states[i].jobs && id !in states[i].main.records
    ensures states[i].jobs[id].live.job.finished || CancelPending(states[i], id)
  {
    RunKeeps(states, moves, i);
    hide SystemRun;
    assert SliceOk(SliceOf(states[i], id), id);
  }

  // ---------------------------------------------------------------- cancellation

  /** Finished, or on the worker's list of this turn and not yet past it. */
  predicate CancelTaken(s: Sys, id: int) {
    id in s.jobs && (s.jobs[id].live.job.finished
                     || (id in s.workCancels && (s.pc == Admitting || s.pc == Cancelling)))
  }

  lemma JobStepFinished(s: Sys, k: int, a: Label, id: int)
    requires Inv(s) && CanJobStep(s, k, a) && id in s.jobs && s.jobs[id].live.job.finished
    ensures id in DoJobStep(s, k, a).jobs && DoJobStep(s, k, a).jobs[id].live.job.finished
  {
    hide LiveInv, Step, Enabled, Of, SumFor, DataOf;
    assert SliceOk(SliceOf(s, k), k);
    StepGrowsHistory(s.jobs[k].live, s.disk, a);
  }

  lemma CancelTakenStays(s: Sys, a: Move, id: int)
    requires Inv(s) && Can(s, a) && CancelTaken(s, id)
    ensures CancelTaken(Next(s, a), id)
  {
    hide SliceOk, SliceOf, CanJobStep, FindActive, Act, DoJobStep;
    match a {
      case JobStep(k, step) =>
        JobStepFrame(s, k, step);
        if s.jobs[id].live.job.finished {
          JobStepFinished(s, k, step, id);
        }
      case CancelNext =>
        CancelNextFinishes(s);
        var k := s.workCancels[0];
        assert forall x :: x in s.workCancels ==> x == k || x in s.workCancels[1..];
        if FindActive(s, k) {
          JobStepFrame(s, k, CancelNow);
          if s.jobs[id].live.job.finished {
            JobStepFinished(s, k, CancelNow, id);
          }
        }
      case CreditNext =>
        var (k, bytes) := s.workCredits[0];
        if FindActive(s, k) {
          JobStepFrame(s, k, Consumed(bytes));
          if s.jobs[id].live.job.finished {
            JobStepFinished(s, k, Consumed(bytes), id);
          }
        }
      case Send(_, _, _) =>
        assert id != s.main.nextJobId;
      case _ =>
    }
  }

  /** No cancellation is lost: a cancel the worker takes in some turn leaves its job finished by the
      time that turn has left the cancelling phase. */
  lemma {:induction false} NoCancellationIsLost(states: seq<Sys>, moves: seq<Move>, i: nat, j: nat, id: int)
    requires SystemRun(states, moves) && i < j <= |moves|
    requires moves[i] == TakePending && id in states[i].cancels
    ensures CancelTaken(states[j], id)
    ensures states[j].pc == Crediting || states[j].pc == Running ==> states[j].jobs[id].live.job.finished
  {
    hide Inv, Can, Next;
    RunKeeps(states, moves, j - 1);
    if i == j - 1 {
      TakenCancel(states[i], id);
    } else {
      NoCancellationIsLost(states, moves, i, j - 1, id);
      CancelTakenStays(states[j - 1], moves[j - 1], id);
    }
  }

  lemma TakenCancel(s: Sys, id: int)
    requires Inv(s) && Can(s, TakePending) && id in s.cancels
    ensures CancelTaken(Next(s, TakePending), id)
  {
    hide SliceOk, SliceOf;
    var k :| 0 <= k < |s.cancels| && s.cancels[k] == id;
  }

  /** A cancel that reaches a running job ends it with Complete(Cancelled) as its last event. */
  lemma CancelPostsCancelled(s: Sys)
    requires Inv(s) && CanCancelNext(s) && FindActive(s, s.workCancels[0])
    ensures var id := s.workCancels[0];
            var h := DoCancelNext(s).jobs[id].live.history;
            && |h| == |s.jobs[id].live.history| + 1
            && h[|h| - 1].Complete? && h[|h| - 1].status == Cancelled
  {
    hide LiveInv, Of, SumFor, DataOf;
  }
}
