/** When the worker sends a request again: never before the delay it chose has passed, and in the first turn
    after that (src/job.cpp:788-816, src/transfer_thread.cpp:75-96 and 182-193). */
module RetryTime {
  import opened Events
  import opened JobSpec
  import opened Live
  import opened TransferThread
  import Outcomes

  /** Attempt `attempt` of this request is over, and the next may begin at `time`. */
  predicate AwaitsRetry(j: JobSpec.Job, spec: RequestSpec, attempt: int, time: int) {
    j.waitingForRetry && j.spec == spec && j.attempt == attempt && j.retryAt == time
  }

  ghost predicate Awaited(list: seq<JobSpec.Job>, spec: RequestSpec, attempt: int, time: int) {
    exists i :: 0 <= i < |list| && AwaitsRetry(list[i], spec, attempt, time)
  }

  /** The loop over the waiting jobs begins the next attempt of each whose time has come, at once, and
      leaves the others as they are. */
  lemma RetryBeginsIff(jobs: seq<JobSpec.Job>, disk: Disk, now: int, answers: seq<BeginAnswers>, i: nat)
    requires |answers| == |jobs| && i < |jobs| && Placed(jobs[i]) && jobs[i].waitingForRetry
    ensures var j := RetryAll(jobs, disk, now, answers).jobs[i];
            && (now >= jobs[i].retryAt ==> j.attempt == jobs[i].attempt + 1 && !j.waitingForRetry)
            && (now < jobs[i].retryAt ==> j == jobs[i])
  {
    RetryPlaces(jobs, disk, now, answers, i);
    hide RetryAll, Placed;
  }

  /** The state of the worker's list when a turn starts, and what that turn is given. */
  datatype Turn = Turn(
    incoming: seq<JobSpec.Job>,
    disk: Disk,
    cancels: seq<int>,
    consumes: seq<ConsumeRequest>,
    now: int,
    first: seq<BeginAnswers>,
    again: seq<BeginAnswers>)

  ghost predicate CanTurn(active: seq<JobSpec.Job>, turn: Turn) {
    && |turn.first| == |turn.incoming| && |turn.again| == |active| + |turn.incoming|
    && (forall k :: 0 <= k < |active| ==> Placed(active[k]) && !active[k].finished)
    && (forall k :: 0 <= k < |turn.incoming| ==> turn.incoming[k] == NewJob(turn.incoming[k].spec))
    && DistinctIds(active + turn.incoming)
  }

  function Started(active: seq<JobSpec.Job>, turn: Turn): seq<JobSpec.Job>
    requires |turn.first| == |turn.incoming| && |turn.again| == |active| + |turn.incoming|
  {
    TurnStart(active, turn.incoming, turn.disk, turn.cancels, turn.consumes, turn.now, turn.first, turn.again).jobs
  }

  /** In a turn at time t a job that waits and is not cancelled begins its next attempt exactly when its time
      has come. Otherwise it goes on waiting for the same time. */
  lemma TurnRetriesIff(active: seq<JobSpec.Job>, turn: Turn, i: nat)
    requires CanTurn(active, turn) && i < |active| && active[i].waitingForRetry
    requires active[i].spec.id !in turn.cancels
    ensures |Started(active, turn)| == |active| + |turn.incoming|
    ensures var j := Started(active, turn)[i];
            && (turn.now >= active[i].retryAt ==>
                  j.attempt == active[i].attempt + 1 && !j.waitingForRetry && j.spec == active[i].spec)
            && (turn.now < active[i].retryAt ==>
                  !j.attached && AwaitsRetry(j, active[i].spec, active[i].attempt, active[i].retryAt))
  {
    hide Placed, NewJob, RetryDue, JobSpec.Cancel, RetryAll;
    var admitted := AdmitAll(turn.incoming, turn.disk, turn.first);
    var list := active + admitted.jobs;
    forall k | 0 <= k < |list|
      ensures Placed(list[k]) && list[k].spec == (active + turn.incoming)[k].spec
    {
      if k >= |active| {
        AdmitPlaces(turn.incoming, turn.disk, turn.first, k - |active|);
      }
    }
    CancelledAndPlaced(list, turn.cancels);
    CancelAllReachesEveryJob(list, turn.cancels, i);
    var cancelled := CancelAll(list, turn.cancels).jobs;
    ConsumedAndPlaced(cancelled, turn.consumes);
    var consumed := ConsumeAll(cancelled, turn.consumes);
    RetryBeginsIff(consumed, admitted.disk, turn.now, turn.again, i);
    RetryPlaces(consumed, admitted.disk, turn.now, turn.again, i);
    WaitingIsIdle(consumed[i]);
  }

  lemma WaitingIsIdle(j: JobSpec.Job)
    requires Placed(j) && j.waitingForRetry
    ensures !j.attached && !j.finished
  {
  }

  /** The list after a turn in which the transfers of `messages` were done. */
  function Ended(active: seq<JobSpec.Job>, turn: Turn, disk: Disk, messages: seq<DoneMessage>): seq<JobSpec.Job>
    requires |turn.first| == |turn.incoming| && |turn.again| == |active| + |turn.incoming|
    requires forall m :: 0 <= m < |messages| ==> messages[m].0 < |Started(active, turn)|
  {
    Kept(ReapAll(Started(active, turn), disk, messages).jobs)
  }

  /** A whole turn before the time is up leaves the job on the list, still waiting for the same time. */
  lemma EarlyTurnKeepsWaiting(active: seq<JobSpec.Job>, turn: Turn, disk: Disk, messages: seq<DoneMessage>, i: nat)
    requires CanTurn(active, turn) && i < |active| && active[i].waitingForRetry
    requires active[i].spec.id !in turn.cancels && turn.now < active[i].retryAt
    requires Deliverable(Started(active, turn), messages)
    ensures Awaited(Ended(active, turn, disk, messages), active[i].spec, active[i].attempt, active[i].retryAt)
  {
    TurnRetriesIff(active, turn, i);
    TurnIsReady(active, turn.incoming, turn.disk, turn.cancels, turn.consumes, turn.now, turn.first, turn.again);
    StartedIsDistinct(active, turn);
    hide CanTurn, Started, Placed;
    var started := Started(active, turn);
    ReapPlaces(started, disk, messages, i);
    var reaped := ReapAll(started, disk, messages).jobs;
    forall k | 0 <= k < |reaped| ensures reaped[k].spec == started[k].spec {
      ReapPlaces(started, disk, messages, k);
    }
    KeptMembers(reaped);
    WaitingIsIdle(started[i]);
    assert reaped[i] == started[i] && reaped[i] in Kept(reaped);
  }

  lemma StartedIsDistinct(active: seq<JobSpec.Job>, turn: Turn)
    requires CanTurn(active, turn)
    ensures DistinctIds(Started(active, turn))
    ensures forall i :: 0 <= i < |Started(active, turn)| ==> Placed(Started(active, turn)[i])
  {
    TurnIsReady(active, turn.incoming, turn.disk, turn.cancels, turn.consumes, turn.now, turn.first, turn.again);
    TurnKeepsLength(active, turn.incoming, turn.disk, turn.cancels, turn.consumes, turn.now, turn.first, turn.again);
    hide Placed, NewJob;
    forall i | 0 <= i < |active| + |turn.incoming|
      ensures Started(active, turn)[i].spec == (active + turn.incoming)[i].spec
    {
      TurnPlacesEveryJob(active, turn.incoming, turn.disk, turn.cancels, turn.consumes, turn.now, turn.first,
                         turn.again, i);
    }
    hide Started;
  }

  /** From the end of a failed attempt to the next: the attempt that ended at d.now is followed by a new one
      in a turn at time t exactly when t is at least d.now plus the delay that was chosen. */
  lemma DelayIsWaitedFor(l: Live, files: Disk, d: DoneAnswers, active: seq<JobSpec.Job>, turn: Turn, i: nat)
    requires LiveInv(l) && CanFinish(l, d)
    requires i < |active| && active[i] == DoFinish(l, files, d).0.job && active[i].waitingForRetry
    requires active[i].spec.id !in turn.cancels && CanTurn(active, turn)
    ensures var delays := DoFinish(l, files, d).0.delays;
            && |delays| == |l.delays| + 1 && |Started(active, turn)| == |active| + |turn.incoming|
            && Started(active, turn)[i].attempt
               == l.job.attempt + (if turn.now >= d.now + delays[|l.delays|] then 1 else 0)
            && (Started(active, turn)[i].waitingForRetry <==> turn.now < d.now + delays[|l.delays|])
  {
    hide LiveInv, CanTurn, DoFinish, Started;
    RetryTimeIsSet(l, files, d);
    TurnRetriesIff(active, turn, i);
  }

  /** Consecutive turns, the lists between them, and the transfers that were done in each. */
  ghost predicate Turns(lists: seq<seq<JobSpec.Job>>, turns: seq<Turn>, done: seq<(Disk, seq<DoneMessage>)>) {
    && |lists| == |turns| + 1 && |done| == |turns|
    && forall k :: 0 <= k < |turns| ==>
         && CanTurn(lists[k], turns[k]) && Deliverable(Started(lists[k], turns[k]), done[k].1)
         && lists[k + 1] == Ended(lists[k], turns[k], done[k].0, done[k].1)
  }

  /** Over any number of turns that come too early the job stays on the list and makes no attempt. */
  lemma {:induction false} WaitsThroughTurns(lists: seq<seq<JobSpec.Job>>, turns: seq<Turn>,
      done: seq<(Disk, seq<DoneMessage>)>, spec: RequestSpec, attempt: int, time: int, n: nat)
    requires Turns(lists, turns, done) && n <= |turns| && Awaited(lists[0], spec, attempt, time)
    requires forall k :: 0 <= k < n ==> turns[k].now < time && spec.id !in turns[k].cancels
    ensures Awaited(lists[n], spec, attempt, time)
  {
    if n > 0 {
      WaitsThroughTurns(lists, turns, done, spec, attempt, time, n - 1);
      hide CanTurn, Deliverable, Started, Ended;
      var i :| 0 <= i < |lists[n - 1]| && AwaitsRetry(lists[n - 1][i], spec, attempt, time);
      EarlyTurnKeepsWaiting(lists[n - 1], turns[n - 1], done[n - 1].0, done[n - 1].1, i);
    }
  }

  /** And the first turn that comes in time begins the next attempt. */
  lemma BeginsInTheFirstDueTurn(lists: seq<seq<JobSpec.Job>>, turns: seq<Turn>, done: seq<(Disk, seq<DoneMessage>)>,
                                spec: RequestSpec, attempt: int, time: int, n: nat)
    requires Turns(lists, turns, done) && n < |turns| && Awaited(lists[0], spec, attempt, time)
    requires forall k :: 0 <= k < n ==> turns[k].now < time && spec.id !in turns[k].cancels
    requires turns[n].now >= time && spec.id !in turns[n].cancels
    ensures var started := Started(lists[n], turns[n]);
            exists i :: 0 <= i < |started| && started[i].spec == spec && started[i].attempt == attempt + 1
  {
    WaitsThroughTurns(lists, turns, done, spec, attempt, time, n);
    var i :| 0 <= i < |lists[n]| && AwaitsRetry(lists[n][i], spec, attempt, time);
    TurnRetriesIff(lists[n], turns[n], i);
    hide CanTurn, Deliverable, Started, Ended;
    assert Started(lists[n], turns[n])[i].spec == spec;
  }

  lemma RetryTimeIsSet(l: Live, disk: Disk, d: DoneAnswers)
    requires LiveInv(l) && CanFinish(l, d) && DoFinish(l, disk, d).0.job.waitingForRetry
    ensures var l' := DoFinish(l, disk, d).0;
            && |l'.delays| == |l.delays| + 1 && l'.job.attempt == l.job.attempt && !l'.job.finished
            && l'.job.retryAt == d.now + l'.delays[|l.delays|]
  {
    hide LiveInv, DoFinish;
    if d.code != CurlOk {
      Outcomes.TransportOutcome(l, disk, d);
    } else if 200 <= d.status <= 299 {
      Outcomes.SuccessOutcome(l, disk, d);
    } else {
      Outcomes.ErrorResponseOutcome(l, disk, d);
    }
  }
}
