/** A list of jobs that follows the moves of the two-thread machine is, at every point of every run, its
    active part; cancels and credits change it as the Worker object's loops do. */
module WorkerRefinement {
  import opened Events
  import opened JobSpec
  import opened Live
  import opened MainThread
  import opened System
  import T = TransferThread

  /** m_active as a list of job values holds each active job of the machine exactly once. */
  ghost predicate Matches(s: Sys, list: seq<Job>) {
    && T.DistinctIds(list)
    && (forall i :: 0 <= i < |list| ==> Holds(s, list[i]))
    && (forall id :: id in s.jobs && s.jobs[id].place == Active ==> Listed(list, id))
  }

  ghost predicate JobsOk(s: Sys) {
    forall id :: id in s.jobs ==> JobOk(s.jobs[id], id)
  }

  lemma InvMeansJobsOk(s: Sys)
    requires Inv(s)
    ensures JobsOk(s)
  {
    hide JobOk, PipeOk, CreditOk, RecordOk, ListsOk, Of, SumFor;
    forall id | id in s.jobs ensures JobOk(s.jobs[id], id) {
      assert SliceOk(SliceOf(s, id), id);
    }
  }

  predicate Holds(s: Sys, j: Job) {
    j.spec.id in s.jobs && s.jobs[j.spec.id].place == Active && s.jobs[j.spec.id].live.job == j
  }

  predicate Listed(list: seq<Job>, id: int) {
    exists i :: 0 <= i < |list| && list[i].spec.id == id
  }

  /** What one machine step does to the list. */
  function ListAfter(s: Sys, list: seq<Job>, a: Move): seq<Job>
    requires Can(s, a)
  {
    match a
    case JobStep(id, step) =>
      var job := Step(s.jobs[id].live, s.disk, step).0.job;
      var i := T.FindActive(list, id);
      if i == |list| then list + [job] else list[i := job]
    case CancelNext => T.CancelOne(list, s.workCancels[0]).jobs
    case CreditNext => T.ConsumeOne(list, s.workCredits[0])
    case NextPhase => if s.pc == Running then T.Kept(list) else list
    case _ => list
  }

  /** The worker finds a job in its list exactly when the machine says it is active and unfinished. */
  lemma FoundAlike(s: Sys, list: seq<Job>, id: int)
    requires Matches(s, list)
    ensures System.FindActive(s, id) <==> T.FindActive(list, id) < |list|
    ensures System.FindActive(s, id) ==> list[T.FindActive(list, id)] == s.jobs[id].live.job
  {
    if System.FindActive(s, id) {
      assert Listed(list, id);
      var i :| 0 <= i < |list| && list[i].spec.id == id;
      assert Holds(s, list[i]);
    }
    if T.FindActive(list, id) < |list| {
      assert Holds(s, list[T.FindActive(list, id)]);
    }
  }

  /** Replacing one job of the list follows a step of that job. */
  lemma UpdateMatches(s: Sys, s': Sys, list: seq<Job>, i: nat, job: Job)
    requires Matches(s, list) && i < |list| && job.spec.id == list[i].spec.id
    requires s'.jobs.Keys == s.jobs.Keys && Holds(s', job)
    requires forall id :: id in s.jobs && id != job.spec.id ==> s'.jobs[id] == s.jobs[id]
    ensures Matches(s', list[i := job])
  {
    var list' := list[i := job];
    forall k | 0 <= k < |list'| ensures Holds(s', list'[k]) {
      assert Holds(s, list[k]);
    }
    forall id | id in s'.jobs && s'.jobs[id].place == Active ensures Listed(list', id) {
      if id == job.spec.id {
        assert list'[i].spec.id == id;
      } else {
        assert Listed(list, id);
        var k :| 0 <= k < |list| && list[k].spec.id == id;
        assert list'[k].spec.id == id;
      }
    }
  }

  lemma AppendMatches(s: Sys, s': Sys, list: seq<Job>, job: Job)
    requires Matches(s, list) && job.spec.id in s.jobs && s.jobs[job.spec.id].place != Active
    requires s'.jobs.Keys == s.jobs.Keys && Holds(s', job)
    requires forall id :: id in s.jobs && id != job.spec.id ==> s'.jobs[id] == s.jobs[id]
    ensures Matches(s', list + [job])
  {
    var list' := list + [job];
    forall k | 0 <= k < |list| ensures Holds(s', list'[k]) && list'[k].spec.id != job.spec.id {
      assert Holds(s, list[k]);
    }
    forall id | id in s'.jobs && s'.jobs[id].place == Active ensures Listed(list', id) {
      if id == job.spec.id {
        assert list'[|list|].spec.id == id;
      } else {
        assert Listed(list, id);
        var k :| 0 <= k < |list| && list[k].spec.id == id;
        assert list'[k].spec.id == id;
      }
    }
  }

  lemma JobStepEffect(s: Sys, id: int, a: Label)
    requires JobsOk(s) && CanJobStep(s, id, a)
    ensures var s' := DoJobStep(s, id, a);
            var (live, disk) := Step(s.jobs[id].live, s.disk, a);
            && s'.jobs.Keys == s.jobs.Keys
            && s'.jobs[id].live == live && s'.jobs[id].place == Active
            && live.job.spec.id == id && !s.jobs[id].live.job.finished
            && s'.queue == s.queue + Posts(s.jobs[id].live, live)
            && forall k :: k in s.jobs && k != id ==> s'.jobs[k] == s.jobs[k]
  {
    assert JobOk(s.jobs[id], id);
    hide Step, Enabled, LiveInv, Posts;
    StepGrowsHistory(s.jobs[id].live, s.disk, a);
  }

  /** An attempt, a completion, a write: the job's place in the list takes the job's new value; a first
      attempt puts the job at the end of the list. */
  lemma JobStepMatches(s: Sys, list: seq<Job>, id: int, a: Label)
    requires JobsOk(s) && Matches(s, list) && CanJobStep(s, id, a)
    ensures var job := Step(s.jobs[id].live, s.disk, a).0.job;
            var i := T.FindActive(list, id);
            Matches(DoJobStep(s, id, a), if i == |list| then list + [job] else list[i := job])
  {
    JobStepEffect(s, id, a);
    FoundAlike(s, list, id);
    var job := Step(s.jobs[id].live, s.disk, a).0.job;
    hide Step, Enabled, JobsOk, Matches, DoJobStep, CanJobStep;
    var i := T.FindActive(list, id);
    if i == |list| {
      AppendMatches(s, DoJobStep(s, id, a), list, job);
    } else {
      UpdateMatches(s, DoJobStep(s, id, a), list, i, job);
    }
  }

  /** ApplyCancellations, one request: the list and the queue change as the machine's do. */
  lemma CancelNextMatches(s: Sys, list: seq<Job>)
    requires JobsOk(s) && Matches(s, list) && CanCancelNext(s)
    ensures Matches(DoCancelNext(s), T.CancelOne(list, s.workCancels[0]).jobs)
  {
    var id := s.workCancels[0];
    hide JobsOk, Matches, Cancel, Step, Enabled, Posts, DoJobStep, System.FindActive;
    FoundAlike(s, list, id);
    if System.FindActive(s, id) {
      JobStepMatches(s, list, id, CancelNow);
      CancelStep(s.jobs[id].live, s.disk);
      SameJobs(DoJobStep(s, id, CancelNow), DoCancelNext(s), T.CancelOne(list, id).jobs);
    } else {
      SameJobs(s, DoCancelNext(s), list);
    }
  }

  lemma CancelNextPosts(s: Sys, list: seq<Job>)
    requires JobsOk(s) && Matches(s, list) && CanCancelNext(s)
    ensures DoCancelNext(s).queue == s.queue + T.CancelOne(list, s.workCancels[0]).posts
  {
    var id := s.workCancels[0];
    hide JobsOk, Matches, Cancel, Step, Enabled, Posts, DoJobStep, System.FindActive;
    FoundAlike(s, list, id);
    if System.FindActive(s, id) {
      JobStepEffect(s, id, CancelNow);
      CancelStep(s.jobs[id].live, s.disk);
    } else {
      assert s.queue + [] == s.queue;
    }
  }

  lemma CancelStep(l: Live, disk: Disk)
    requires Enabled(l, CancelNow)
    ensures Step(l, disk, CancelNow).0.job == Cancel(l.job).job
    ensures Posts(l, Step(l, disk, CancelNow).0) == Cancel(l.job).posts
  {
    hide Cancel;
  }

  lemma ConsumeStep(l: Live, disk: Disk, bytes: nat)
    requires Enabled(l, Consumed(bytes))
    ensures Step(l, disk, Consumed(bytes)).0.job == OnStreamConsumed(l.job, bytes)
  {
  }

  lemma SameJobs(s: Sys, s': Sys, list: seq<Job>)
    requires Matches(s, list) && s'.jobs == s.jobs
    ensures Matches(s', list)
  {
    hide Listed;
    forall k | 0 <= k < |list| ensures Holds(s', list[k]) {
      assert Holds(s, list[k]);
    }
  }

  /** ApplyConsumed, one request. */
  lemma CreditNextMatches(s: Sys, list: seq<Job>)
    requires JobsOk(s) && Matches(s, list) && CanCreditNext(s)
    ensures Matches(DoCreditNext(s), T.ConsumeOne(list, s.workCredits[0]))
  {
    var (id, bytes) := s.workCredits[0];
    FoundAlike(s, list, id);
    if System.FindActive(s, id) {
      JobStepMatches(s, list, id, Consumed(bytes));
      ConsumeStep(s.jobs[id].live, s.disk, bytes);
      hide JobsOk, CanJobStep, OnStreamConsumed, Step, Posts;
      SameJobs(DoJobStep(s, id, Consumed(bytes)), DoCreditNext(s), T.ConsumeOne(list, s.workCredits[0]));
    } else {
      hide JobsOk;
      SameJobs(s, DoCreditNext(s), list);
    }
  }

  /** RemoveFinished. */
  lemma RemoveMatches(s: Sys, list: seq<Job>)
    requires Matches(s, list) && s.pc == Running
    ensures Matches(DoNextPhase(s), T.Kept(list))
  {
    T.KeptMembers(list);
    var s' := DoNextPhase(s);
    forall i | 0 <= i < |T.Kept(list)| ensures Holds(s', T.Kept(list)[i]) {
      var k :| 0 <= k < |list| && list[k] == T.Kept(list)[i];
      assert Holds(s, list[k]);
    }
    forall id | id in s'.jobs && s'.jobs[id].place == Active ensures Listed(T.Kept(list), id) {
      assert Listed(list, id);
      var k :| 0 <= k < |list| && list[k].spec.id == id;
      assert Holds(s, list[k]);
      assert list[k] in T.Kept(list);
    }
  }

  /** The same jobs are active, and none of them moved. */
  predicate ActiveAlike(s: Sys, s': Sys) {
    && (forall id :: id in s.jobs ==>
          id in s'.jobs && s'.jobs[id].live == s.jobs[id].live && (s'.jobs[id].place == Active <==>
              s.jobs[id].place == Active))
    && (forall id :: id in s'.jobs && s'.jobs[id].place == Active ==> id in s.jobs)
  }

  /** Nothing the main thread does, and no other phase of the turn, touches the active jobs. */
  lemma OthersMatch(s: Sys, list: seq<Job>, a: Move)
    requires Matches(s, list) && ListsOk(s) && Can(s, a)
    requires !a.JobStep? && !a.CancelNext? && !a.CreditNext? && !(a.NextPhase? && s.pc == Running)
    ensures Matches(Next(s, a), list)
  {
    var s' := Next(s, a);
    assert ActiveAlike(s, s') by {
      if a.Send? { SendAlike(s, a.handle, a.owner, a.maxWrite); } else { SameActive(s, a); }
    }
    hide Next, Can, ListsOk;
    forall k | 0 <= k < |list| ensures Holds(s', list[k]) {
      assert Holds(s, list[k]);
    }
  }

  lemma SendAlike(s: Sys, handle: int, owner: int, maxWrite: nat)
    requires ListsOk(s)
    ensures ActiveAlike(s, DoSend(s, handle, owner, maxWrite))
  {
    assert s.main.nextJobId !in s.jobs;
    hide Fresh, ListsOk;
  }

  lemma SameActive(s: Sys, a: Move)
    requires Can(s, a) && !a.Send?
    requires !a.JobStep? && !a.CancelNext? && !a.CreditNext? && !(a.NextPhase? && s.pc == Running)
    ensures ActiveAlike(s, Next(s, a))
  {
    hide CancelJob, DropJob, EndEvent, StartEvent, Act;
  }

  lemma StepMatches(s: Sys, list: seq<Job>, a: Move)
    requires Inv(s) && Matches(s, list) && Can(s, a)
    ensures Matches(Next(s, a), ListAfter(s, list, a))
  {
    InvMeansJobsOk(s);
    match a {
      case JobStep(id, step) => JobStepMatches(s, list, id, step);
      case CancelNext => CancelNextMatches(s, list);
      case CreditNext => CreditNextMatches(s, list);
      case _ =>
        if a.NextPhase? && s.pc == Running {
          RemoveMatches(s, list);
        } else {
          assert ListsOk(s);
          OthersMatch(s, list, a);
        }
    }
    hide Inv, Matches, DoJobStep, DoCancelNext, DoCreditNext, Step, T.CancelOne, T.ConsumeOne;
  }

  /** The simulation: starting from the empty list and following every move of any run, the list holds
      exactly the machine's active jobs. */
  lemma {:induction false} WorkerFollowsMachine(states: seq<Sys>, moves: seq<Move>, lists: seq<seq<Job>>, i: nat)
    requires SystemRun(states, moves) && |lists| == |states| && lists[0] == []
    requires forall k :: 0 <= k < |moves| ==> Can(states[k], moves[k])
    requires forall k :: 0 <= k < |moves| ==> lists[k + 1] == ListAfter(states[k], lists[k], moves[k])
    requires i <= |moves|
    ensures Matches(states[i], lists[i])
  {
    if i > 0 {
      WorkerFollowsMachine(states, moves, lists, i - 1);
      RunKeeps(states, moves, i - 1);
      StepMatches(states[i - 1], lists[i - 1], moves[i - 1]);
    }
    hide Inv, Next, ListAfter;
  }
}
