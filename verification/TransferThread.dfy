/** The worker: its mailbox, its list of active jobs, and one turn of its loop (src/transfer_thread.cpp). */
module TransferThread {
  import opened Events
  import opened MainThreadQueue
  import opened RestJob
  import S = JobSpec

  const MAX_WAIT_MS := 1000

  type ConsumeRequest = (int, int)

  // ---------------------------------------------------------------- the list operations, on values

  /** The first job with this id that has not finished; the length of the list if there is none. */
  function FindActive(jobs: seq<S.Job>, id: int): (i: nat)
    ensures i <= |jobs|
    ensures i < |jobs| ==> jobs[i].spec.id == id && !jobs[i].finished
    ensures forall k :: 0 <= k < i ==> !(jobs[k].spec.id == id && !jobs[k].finished)
  {
    if jobs == [] || (jobs[0].spec.id == id && !jobs[0].finished) then 0 else 1 + FindActive(jobs[1..], id)
  }

  /** A list of jobs and the events posted while changing it. */
  datatype Outcome = Outcome(jobs: seq<S.Job>, posts: seq<Event>)

  function CancelOne(jobs: seq<S.Job>, id: int): Outcome {
    var i := FindActive(jobs, id);
    if i == |jobs| then Outcome(jobs, [])
    else Outcome(jobs[i := S.Cancel(jobs[i]).job], S.Cancel(jobs[i]).posts)
  }

  function CancelAll(jobs: seq<S.Job>, requests: seq<int>): Outcome {
    if requests == [] then Outcome(jobs, [])
    else
      var before := CancelAll(jobs, requests[..|requests| - 1]);
      var after := CancelOne(before.jobs, requests[|requests| - 1]);
      Outcome(after.jobs, before.posts + after.posts)
  }

  function ConsumeOne(jobs: seq<S.Job>, request: ConsumeRequest): seq<S.Job> {
    var i := FindActive(jobs, request.0);
    if i == |jobs| then jobs else jobs[i := S.OnStreamConsumed(jobs[i], request.1)]
  }

  function ConsumeAll(jobs: seq<S.Job>, requests: seq<ConsumeRequest>): seq<S.Job> {
    if requests == [] then jobs
    else ConsumeOne(ConsumeAll(jobs, requests[..|requests| - 1]), requests[|requests| - 1])
  }

  predicate DistinctIds(jobs: seq<S.Job>) {
    forall i, k :: 0 <= i < k < |jobs| ==> jobs[i].spec.id != jobs[k].spec.id
  }

  /** RemoveFinished: the unfinished jobs, in order. */
  function Kept(list: seq<S.Job>): seq<S.Job> {
    if list == [] then []
    else Kept(list[..|list| - 1]) + (if list[|list| - 1].finished then [] else [list[|list| - 1]])
  }

  /** Exactly the unfinished jobs are kept, each once. */
  lemma {:induction false} KeptMembers(list: seq<S.Job>)
    requires DistinctIds(list)
    ensures DistinctIds(Kept(list))
    ensures forall i :: 0 <= i < |Kept(list)| ==> Kept(list)[i] in list && !Kept(list)[i].finished
    ensures forall i :: 0 <= i < |list| && !list[i].finished ==> list[i] in Kept(list)
  {
    if list != [] {
      var init := list[..|list| - 1];
      KeptMembers(init);
      assert list == init + [list[|list| - 1]];
    }
  }

  /** What cancelling does to the list as a whole: every job that was asked for and still running is
      cancelled, once, and no other job changes. */
  lemma {:induction false} CancelAllReachesEveryJob(jobs: seq<S.Job>, requests: seq<int>, i: nat)
    requires DistinctIds(jobs) && i < |jobs|
    ensures |CancelAll(jobs, requests).jobs| == |jobs| && DistinctIds(CancelAll(jobs, requests).jobs)
    ensures CancelAll(jobs, requests).jobs[i]
         == if jobs[i].spec.id in requests && !jobs[i].finished then S.Cancel(jobs[i]).job else jobs[i]
  {
    hide S.Cancel;
    if requests != [] {
      var init := requests[..|requests| - 1];
      var last := requests[|requests| - 1];
      assert requests == init + [last];
      forall k | 0 <= k < |jobs|
        ensures |CancelAll(jobs, init).jobs| == |jobs| && CancelAll(jobs, init).jobs[k].spec.id == jobs[k].spec.id
        ensures CancelAll(jobs, init).jobs[k]
             == if jobs[k].spec.id in init && !jobs[k].finished then S.Cancel(jobs[k]).job else jobs[k]
        ensures S.Cancel(jobs[k]).job.finished && S.Cancel(jobs[k]).job.spec == jobs[k].spec
        ensures S.Cancel(CancelAll(jobs, init).jobs[k]).job.spec == jobs[k].spec
      {
        CancelAllReachesEveryJob(jobs, init, k);
        S.CancelShape(jobs[k]);
        S.CancelShape(CancelAll(jobs, init).jobs[k]);
      }
    }
  }

  /** Jobs after a loop that starts or ends attempts, the events it posted, and the files it leaves. */
  datatype Turned = Turned(jobs: seq<S.Job>, posts: seq<Event>, disk: S.Disk)

  /** AdmitIncoming: the first attempt of each new job, in order. */
  function AdmitAll(jobs: seq<S.Job>, disk: S.Disk, answers: seq<S.BeginAnswers>): (r: Turned)
    requires |answers| == |jobs|
    ensures |r.jobs| == |jobs|
  {
    if jobs == [] then Turned([], [], disk)
    else
      var n := |jobs| - 1;
      var before := AdmitAll(jobs[..n], disk, answers[..n]);
      var (o, disk') := S.BeginAttempt(jobs[n], before.disk, answers[n]);
      Turned(before.jobs + [o.job], before.posts + o.posts, disk')
  }

  predicate RetryDue(j: S.Job, now: int) {
    j.waitingForRetry && now >= j.retryAt
  }

  /** StartDueRetries: each waiting job whose time has come begins its next attempt. */
  function RetryAll(jobs: seq<S.Job>, disk: S.Disk, now: int, answers: seq<S.BeginAnswers>): (r: Turned)
    requires |answers| == |jobs|
    ensures |r.jobs| == |jobs|
  {
    if jobs == [] then Turned([], [], disk)
    else
      var n := |jobs| - 1;
      var before := RetryAll(jobs[..n], disk, now, answers[..n]);
      if RetryDue(jobs[n], now) then
        var (o, disk') := S.BeginAttempt(jobs[n], before.disk, answers[n]);
        Turned(before.jobs + [o.job], before.posts + o.posts, disk')
      else before.(jobs := before.jobs + [jobs[n]])
  }

  type DoneMessage = (nat, S.DoneAnswers)

  /** DONE messages name attached transfers, each at most once. */
  ghost predicate Deliverable(jobs: seq<S.Job>, messages: seq<DoneMessage>) {
    && (forall m :: 0 <= m < |messages| ==> messages[m].0 < |jobs| && jobs[messages[m].0].attached)
    && (forall m, n :: 0 <= m < n < |messages| ==> messages[m].0 != messages[n].0)
  }

  /** ReapCompleted: each message ends the attempt of its job. */
  function ReapAll(jobs: seq<S.Job>, disk: S.Disk, messages: seq<DoneMessage>): (r: Turned)
    requires forall m :: 0 <= m < |messages| ==> messages[m].0 < |jobs|
    ensures |r.jobs| == |jobs|
  {
    if messages == [] then Turned(jobs, [], disk)
    else
      var n := |messages| - 1;
      var before := ReapAll(jobs, disk, messages[..n]);
      var (o, disk') := S.OnAttemptDone(before.jobs[messages[n].0], before.disk, messages[n].1);
      Turned(before.jobs[messages[n].0 := o.job], before.posts + o.posts, disk')
  }

  /** One turn of Run up to curl_multi_perform, on values. */
  function TurnStart(active: seq<S.Job>, incoming: seq<S.Job>, disk: S.Disk, cancels: seq<int>,
                     consumes: seq<ConsumeRequest>, now: int, first: seq<S.BeginAnswers>,
                         again: seq<S.BeginAnswers>): Turned
    requires |first| == |incoming| && |again| == |active| + |incoming|
  {
    var admitted := AdmitAll(incoming, disk, first);
    var cancelled := CancelAll(active + admitted.jobs, cancels);
    CancelAllKeepsLength(active + admitted.jobs, cancels);
    ConsumeAllKeepsLength(cancelled.jobs, consumes);
    var retried := RetryAll(ConsumeAll(cancelled.jobs, consumes), admitted.disk, now, again);
    Turned(retried.jobs, admitted.posts + cancelled.posts + retried.posts, retried.disk)
  }

  lemma {:induction false} ConsumeAllKeepsLength(jobs: seq<S.Job>, requests: seq<ConsumeRequest>)
    ensures |ConsumeAll(jobs, requests)| == |jobs|
  {
    if requests != [] {
      ConsumeAllKeepsLength(jobs, requests[..|requests| - 1]);
    }
  }

  lemma ReapNone(jobs: seq<S.Job>, disk: S.Disk)
    ensures ReapAll(jobs, disk, []) == Turned(jobs, [], disk)
  {
  }

  lemma ReapStep(jobs: seq<S.Job>, disk: S.Disk, messages: seq<DoneMessage>, n: nat)
    requires n < |messages| && forall m :: 0 <= m < |messages| ==> messages[m].0 < |jobs|
    ensures var before := ReapAll(jobs, disk, messages[..n]);
            var (i, done) := messages[n];
            var (o, disk') := S.OnAttemptDone(before.jobs[i], before.disk, done);
            ReapAll(jobs, disk, messages[..n + 1]) == Turned(before.jobs[i := o.job], before.posts + o.posts, disk')
  {
    hide S.OnAttemptDone;
    assert messages[..n + 1][..n] == messages[..n];
  }

  /** The list in the middle of AdmitIncoming: the first n jobs have begun, the others have not. */
  function AdmittedSoFar(jobs: seq<S.Job>, disk: S.Disk, answers: seq<S.BeginAnswers>, n: nat): Turned
    requires n <= |jobs| == |answers|
  {
    var done := AdmitAll(jobs[..n], disk, answers[..n]);
    done.(jobs := done.jobs + jobs[n..])
  }

  lemma AdmitEnds(jobs: seq<S.Job>, disk: S.Disk, answers: seq<S.BeginAnswers>)
    requires |answers| == |jobs|
    ensures AdmittedSoFar(jobs, disk, answers, 0) == Turned(jobs, [], disk)
    ensures AdmittedSoFar(jobs, disk, answers, |jobs|) == AdmitAll(jobs, disk, answers)
  {
    assert jobs[..|jobs|] == jobs && answers[..|jobs|] == answers;
    assert jobs[..0] == [] && answers[..0] == [];
  }

  lemma AdmitStep(jobs: seq<S.Job>, disk: S.Disk, answers: seq<S.BeginAnswers>, n: nat)
    requires n < |jobs| == |answers|
    ensures var before := AdmittedSoFar(jobs, disk, answers, n);
            && |before.jobs| == |jobs| && before.jobs[n] == jobs[n]
            && var (o, disk') := S.BeginAttempt(jobs[n], before.disk, answers[n]);
               AdmittedSoFar(jobs, disk, answers, n + 1)
               == Turned(before.jobs[n := o.job], before.posts + o.posts, disk')
  {
    hide S.BeginAttempt;
    assert jobs[..n + 1][..n] == jobs[..n] && answers[..n + 1][..n] == answers[..n];
  }

  /** The list in the middle of StartDueRetries. */
  function RetriedSoFar(jobs: seq<S.Job>, disk: S.Disk, now: int, answers: seq<S.BeginAnswers>, n: nat): Turned
    requires n <= |jobs| == |answers|
  {
    var done := RetryAll(jobs[..n], disk, now, answers[..n]);
    done.(jobs := done.jobs + jobs[n..])
  }

  lemma RetryEnds(jobs: seq<S.Job>, disk: S.Disk, now: int, answers: seq<S.BeginAnswers>)
    requires |answers| == |jobs|
    ensures RetriedSoFar(jobs, disk, now, answers, 0) == Turned(jobs, [], disk)
    ensures RetriedSoFar(jobs, disk, now, answers, |jobs|) == RetryAll(jobs, disk, now, answers)
  {
    assert jobs[..|jobs|] == jobs && answers[..|jobs|] == answers;
    assert jobs[..0] == [] && answers[..0] == [];
  }

  lemma RetryStep(jobs: seq<S.Job>, disk: S.Disk, now: int, answers: seq<S.BeginAnswers>, n: nat)
    requires n < |jobs| == |answers|
    ensures var before := RetriedSoFar(jobs, disk, now, answers, n);
            && |before.jobs| == |jobs| && before.jobs[n] == jobs[n]
            && var (o, disk') := S.BeginAttempt(jobs[n], before.disk, answers[n]);
               RetriedSoFar(jobs, disk, now, answers, n + 1)
               == if RetryDue(jobs[n], now) then Turned(before.jobs[n := o.job], before.posts + o.posts, disk')
                  else before
  {
    hide S.BeginAttempt, RetryDue;
    assert jobs[..n + 1][..n] == jobs[..n] && answers[..n + 1][..n] == answers[..n];
  }

  // ---------------------------------------------------------------- the object

  /** A job that has begun is exactly one of attached, waiting for a retry, or finished; only an
      attached job keeps a transfer handle to resume. */
  predicate Placed(j: S.Job) {
    && j.attempt > 0
    && (j.attached || j.waitingForRetry || j.finished)
    && !(j.attached && j.waitingForRetry) && !(j.attached && j.finished) && !(j.waitingForRetry && j.finished)
    && (j.attached ==> j.easy) && (j.waitingForRetry ==> !j.easy)
    && (j.cancelRequested ==> j.finished)
  }

  lemma BeginPlaces(j: S.Job, disk: S.Disk, a: S.BeginAnswers)
    requires !j.finished && !j.attached && j.attempt >= 0 && !j.cancelRequested
    ensures Placed(S.BeginAttempt(j, disk, a).0.job)
  {
    S.BeginShape(j, disk, a);
    hide S.BeginAttempt, S.BeginFailure;
  }

  lemma DonePlaces(j: S.Job, disk: S.Disk, a: S.DoneAnswers)
    requires Placed(j) && j.attached
    ensures Placed(S.OnAttemptDone(j, disk, a).0.job)
  {
    hide S.DoneVerdict, S.DiskAfterDone, S.RetryDelay;
  }

  lemma CancelPlaces(j: S.Job)
    requires Placed(j)
    ensures Placed(S.Cancel(j).job)
  {
  }

  ghost function Views(jobs: seq<Job>): (v: seq<S.Job>)
    reads jobs
    ensures |v| == |jobs|
  {
    seq(|jobs|, i requires 0 <= i < |jobs| reads jobs => jobs[i].View())
  }

  class Worker {
    const queue: Queue
    const store: FileStore
    var incoming: seq<Job>
    var cancelRequests: seq<int>
    var consumeRequests: seq<ConsumeRequest>
    var active: seq<Job>

    /** Every job of the list posts to this queue and uses these files; objects and ids are distinct. */
    ghost predicate Owns(jobs: seq<Job>) {
      && (forall i :: 0 <= i < |jobs| ==> jobs[i].queue == queue && jobs[i].store == store)
      && AllApart(jobs)
    }

    ghost predicate Apart(a: seq<Job>, b: seq<Job>) {
      forall i, k :: 0 <= i < |a| && 0 <= k < |b| ==> a[i] != b[k] && a[i].spec.id != b[k].spec.id
    }

    /** What holds before and after each half of a turn, and whenever a job with a new id comes in: every job
        on either list has its own id below `bound`, active jobs are in one place, waiting ones are new. */
    ghost predicate Ready(bound: int)
      reads `active, `incoming, active, incoming
    {
      && Owns(active) && Owns(incoming) && Apart(active, incoming)
      && (forall i :: 0 <= i < |active| ==> active[i].spec.id < bound && Placed(active[i].View()))
      && (forall i :: 0 <= i < |incoming| ==>
            incoming[i].spec.id < bound && incoming[i].View() == S.NewJob(incoming[i].spec))
    }

    constructor (queue: Queue, store: FileStore)
      ensures this.queue == queue && this.store == store
      ensures incoming == [] && cancelRequests == [] && consumeRequests == [] && active == []
      ensures forall bound :: Ready(bound)
    {
      this.queue, this.store := queue, store;
      incoming, cancelRequests, consumeRequests, active := [], [], [], [];
    }

    method Enqueue(job: Job)
      modifies `incoming
      ensures incoming == old(incoming) + [job]
    {
      incoming := incoming + [job];
    }

    method Cancel(id: int)
      modifies `cancelRequests
      ensures cancelRequests == old(cancelRequests) + [id]
    {
      cancelRequests := cancelRequests + [id];
    }

    method Consume(id: int, bytes: int)
      modifies `consumeRequests
      ensures consumeRequests == old(consumeRequests) + [(id, bytes)]
    {
      consumeRequests := consumeRequests + [(id, bytes)];
    }

    /** All three lists change hands under one lock. */
    method TakePending() returns (jobs: seq<Job>, cancels: seq<int>, consumes: seq<ConsumeRequest>)
      modifies `incoming, `cancelRequests, `consumeRequests
      ensures jobs == old(incoming) && cancels == old(cancelRequests) && consumes == old(consumeRequests)
      ensures incoming == [] && cancelRequests == [] && consumeRequests == []
    {
      jobs, cancels, consumes := incoming, cancelRequests, consumeRequests;
      incoming, cancelRequests, consumeRequests := [], [], [];
    }

    method FindJob(id: int) returns (i: nat)
      ensures i == FindActive(Views(active), id)
    {
      i := 0;
      while i < |active|
        invariant i <= |active|
        invariant forall k :: 0 <= k < i ==> !(active[k].spec.id == id && !active[k].finished)
      {
        if active[i].spec.id == id && !active[i].finished {
          FindActiveIs(Views(active), id, i);
          return;
        }
        i := i + 1;
      }
      FindActiveIs(Views(active), id, i);
    }

    method CancelOneJob(id: int)
      requires Owns(active)
      modifies active, queue
      ensures Views(active) == CancelOne(old(Views(active)), id).jobs
      ensures queue.View() == PostAll(old(queue.View()), CancelOne(old(Views(active)), id).posts)
    {
      hide S.Cancel, PostAll, FindActive;
      PostNone(queue.View());
      var i := FindJob(id);
      if i < |active| {
        active[i].Cancel();
      }
    }

    method ApplyCancellations(requests: seq<int>)
      requires Owns(active)
      modifies active, queue
      ensures Views(active) == CancelAll(old(Views(active)), requests).jobs
      ensures queue.View() == PostAll(old(queue.View()), CancelAll(old(Views(active)), requests).posts)
    {
      hide CancelOne, PostAll, Views;
      ghost var before, posted := Views(active), queue.View();
      var n := 0;
      assert requests[..0] == [] && PostAll(posted, []) == posted by { PostNone(posted); }
      while n < |requests|
        invariant n <= |requests|
        invariant Views(active) == CancelAll(before, requests[..n]).jobs
        invariant queue.View() == PostAll(posted, CancelAll(before, requests[..n]).posts)
      {
        assert requests[..n + 1][..n] == requests[..n];
        ghost var middle := Views(active);
        CancelOneJob(requests[n]);
        PostAllConcat(posted, CancelAll(before, requests[..n]).posts, CancelOne(middle, requests[n]).posts);
        n := n + 1;
      }
      assert requests[..n] == requests;
    }

    method ConsumeForJob(request: ConsumeRequest)
      requires Owns(active)
      modifies active
      ensures Views(active) == ConsumeOne(old(Views(active)), request)
    {
      hide S.OnStreamConsumed, FindActive;
      var i := FindJob(request.0);
      if i < |active| {
        var resumed := active[i].OnStreamConsumed(request.1);
      }
    }

    method ApplyConsumed(requests: seq<ConsumeRequest>)
      requires Owns(active)
      modifies active
      ensures Views(active) == ConsumeAll(old(Views(active)), requests)
    {
      hide ConsumeOne, Views;
      ghost var before := Views(active);
      var n := 0;
      assert requests[..0] == [];
      while n < |requests|
        invariant n <= |requests|
        invariant Views(active) == ConsumeAll(before, requests[..n])
      {
        assert requests[..n + 1][..n] == requests[..n];
        ConsumeForJob(requests[n]);
        n := n + 1;
      }
      assert requests[..n] == requests;
    }

    // ---------------------------------------------------------------- starting and ending attempts

    /** One BeginAttempt, seen in a list that holds the job and in one that does not. */
    method BeginOne(job: Job, answer: S.BeginAnswers, ghost list: seq<Job>, ghost n: nat, ghost others: seq<Job>)
      requires n < |list| && list[n] == job && AllApart(list) && job !in others
      requires job.queue == queue && job.store == store
      modifies job, queue, store
      ensures var (o, disk) := S.BeginAttempt(old(Views(list))[n], old(store.files), answer);
              && Views(list) == old(Views(list))[n := o.job] && Views(others) == old(Views(others))
              && queue.View() == PostAll(old(queue.View()), o.posts) && store.files == disk
    {
      hide S.BeginAttempt, PostAll;
      var started := job.BeginAttempt(answer);
    }

    /** The first n of the incoming jobs have begun. */
    ghost predicate Admitted(jobs: seq<Job>, v: seq<S.Job>, disk: S.Disk, answers: seq<S.BeginAnswers>,
        posted: QueueState, n: nat)
      requires n <= |v| == |answers|
      reads jobs, queue, store
    {
      var done := AdmittedSoFar(v, disk, answers, n);
      Views(jobs) == done.jobs && queue.View() == PostAll(posted, done.posts) && store.files == done.disk
    }

    method AdmitOne(job: Job, answer: S.BeginAnswers, ghost jobs: seq<Job>, ghost n: nat, ghost was: seq<Job>,
                    ghost v: seq<S.Job>, ghost disk: S.Disk, ghost answers: seq<S.BeginAnswers>,
                        ghost posted: QueueState)
      requires n < |v| == |answers| == |jobs| && jobs[n] == job && answers[n] == answer
      requires AllApart(jobs) && job !in was && job.queue == queue && job.store == store
      requires Admitted(jobs, v, disk, answers, posted, n)
      modifies `active, job, queue, store
      ensures active == old(active) + [job] && Views(was) == old(Views(was))
      ensures Admitted(jobs, v, disk, answers, posted, n + 1)
    {
      hide S.BeginAttempt, PostAll, AdmittedSoFar, Views, AllApart;
      AdmitStep(v, disk, answers, n);
      ghost var done := AdmittedSoFar(v, disk, answers, n);
      PostAllConcat(posted, done.posts, S.BeginAttempt(v[n], done.disk, answer).0.posts);
      BeginOne(job, answer, jobs, n, was);
      active := active + [job];
    }

    method AdmitIncoming(jobs: seq<Job>, answers: seq<S.BeginAnswers>)
      requires Owns(active) && Owns(jobs) && Apart(active, jobs) && |answers| == |jobs|
      modifies `active, jobs, queue, store
      ensures active == old(active) + jobs && Owns(active)
      ensures var r := AdmitAll(old(Views(jobs)), old(store.files), answers);
              && Views(active) == old(Views(active)) + r.jobs
              && queue.View() == PostAll(old(queue.View()), r.posts) && store.files == r.disk
    {
      hide PostAll, AdmitAll, AdmittedSoFar, Views, Admitted, Owns, Apart, AllApart;
      ghost var was, v, w, disk, posted := active, Views(jobs), Views(active), store.files, queue.View();
      JoinOwned(active, jobs);
      NoneAdmitted(jobs, answers);
      var n := 0;
      while n < |jobs|
        invariant n <= |jobs| && active == was + jobs[..n] && Views(was) == w
        invariant Admitted(jobs, v, disk, answers, posted, n)
      {
        PickOwned(was, jobs, n);
        OneMore(was, jobs, n);
        AdmitOne(jobs[n], answers[n], jobs, n, was, v, disk, answers, posted);
        n := n + 1;
      }
      assert jobs[..n] == jobs;
      AllAdmitted(jobs, v, disk, answers, posted);
      ViewsConcat(was, jobs);
    }

    lemma PickOwned(was: seq<Job>, jobs: seq<Job>, n: nat)
      requires n < |jobs| && Owns(jobs) && Apart(was, jobs)
      ensures jobs[n].queue == queue && jobs[n].store == store && jobs[n] !in was && AllApart(jobs)
    {
    }

    lemma NoneAdmitted(jobs: seq<Job>, answers: seq<S.BeginAnswers>)
      requires |answers| == |jobs|
      ensures Admitted(jobs, Views(jobs), store.files, answers, queue.View(), 0)
    {
      hide AdmittedSoFar, Views;
      AdmitEnds(Views(jobs), store.files, answers);
    }

    lemma AllAdmitted(jobs: seq<Job>, v: seq<S.Job>, disk: S.Disk, answers: seq<S.BeginAnswers>, posted: QueueState)
      requires |v| == |answers| == |jobs| && Admitted(jobs, v, disk, answers, posted, |v|)
      ensures var r := AdmitAll(v, disk, answers);
              Views(jobs) == r.jobs && queue.View() == PostAll(posted, r.posts) && store.files == r.disk
    {
      hide AdmitAll, AdmittedSoFar, Views, PostAll;
      AdmitEnds(v, disk, answers);
    }

    method StartDueRetries(now: int, answers: seq<S.BeginAnswers>)
      requires Owns(active) && |answers| == |active|
      modifies active, queue, store
      ensures var r := RetryAll(old(Views(active)), old(store.files), now, answers);
              && Views(active) == r.jobs
              && queue.View() == PostAll(old(queue.View()), r.posts) && store.files == r.disk
    {
      hide S.BeginAttempt, PostAll, RetryAll, RetriedSoFar, Views, AllApart;
      ghost var v, disk, posted := Views(active), store.files, queue.View();
      PostNone(posted);
      RetryEnds(v, disk, now, answers);
      ghost var done := Turned(v, [], disk);
      var n := 0;
      while n < |active|
        invariant n <= |active| && done == RetriedSoFar(v, disk, now, answers, n) && Views(active) == done.jobs
        invariant queue.View() == PostAll(posted, done.posts) && store.files == done.disk
      {
        RetryStep(v, disk, now, answers, n);
        ViewAt(active, n);
        if active[n].waitingForRetry && now >= active[n].retryAt {
          PostAllConcat(posted, done.posts, S.BeginAttempt(v[n], done.disk, answers[n]).0.posts);
          BeginOne(active[n], answers[n], active, n, []);
        }
        n := n + 1;
        done := RetriedSoFar(v, disk, now, answers, n);
      }
    }

    method ReapCompleted(messages: seq<DoneMessage>)
      requires Owns(active) && Deliverable(Views(active), messages)
      modifies active, queue, store
      ensures var r := ReapAll(old(Views(active)), old(store.files), messages);
              && Views(active) == r.jobs
              && queue.View() == PostAll(old(queue.View()), r.posts) && store.files == r.disk
    {
      ghost var v, disk, posted := Views(active), store.files, queue.View();
      PostNone(posted);
      ReapNone(v, disk);
      ghost var done := Turned(v, [], disk);
      assert messages[..0] == [];
      hide S.OnAttemptDone, PostAll, ReapAll, Views, AllApart;
      var n := 0;
      while n < |messages|
        invariant n <= |messages| && done == ReapAll(v, disk, messages[..n]) && Views(active) == done.jobs
        invariant queue.View() == PostAll(posted, done.posts) && store.files == done.disk
      {
        ReapStep(v, disk, messages, n);
        var (i, message) := messages[n];
        PostAllConcat(posted, done.posts, S.OnAttemptDone(done.jobs[i], done.disk, message).0.posts);
        EndOne(active[i], message, active, i);
        n := n + 1;
        done := ReapAll(v, disk, messages[..n]);
      }
      assert messages[..n] == messages;
    }

    /** One OnAttemptDone, seen in a list that holds the job. */
    method EndOne(job: Job, answer: S.DoneAnswers, ghost list: seq<Job>, ghost n: nat)
      requires n < |list| && list[n] == job && AllApart(list) && job.queue == queue && job.store == store
      modifies job, queue, store
      ensures var (o, disk) := S.OnAttemptDone(old(Views(list))[n], old(store.files), answer);
              && Views(list) == old(Views(list))[n := o.job]
              && queue.View() == PostAll(old(queue.View()), o.posts) && store.files == disk
    {
      hide S.OnAttemptDone, PostAll;
      job.OnAttemptDone(answer);
    }

    lemma JoinOwned(a: seq<Job>, b: seq<Job>)
      requires Owns(a) && Owns(b) && Apart(a, b)
      ensures Owns(a + b)
    {
    }

    // ---------------------------------------------------------------- a turn of the loop

    /** The turn up to curl_multi_perform, in the order of Run: admit, cancel, consume, retry. */
    method BeginTurn(now: int, first: seq<S.BeginAnswers>, again: seq<S.BeginAnswers>, ghost bound: int)
      requires Ready(bound) && |first| == |incoming| && |again| == |active| + |incoming|
      modifies this, active, incoming, queue, store
      ensures Ready(bound) && active == old(active) + old(incoming)
      ensures incoming == [] && cancelRequests == [] && consumeRequests == []
      ensures var r := TurnStart(old(Views(active)), old(Views(incoming)), old(store.files),
                                 old(cancelRequests), old(consumeRequests), now, first, again);
              && Views(active) == r.jobs
              && queue.View() == PostAll(old(queue.View()), r.posts) && store.files == r.disk
    {
      ghost var v, w, disk, cancels, consumes := Views(active), Views(incoming), store.files, cancelRequests,
          consumeRequests;
      TurnIsReady(v, w, disk, cancels, consumes, now, first, again);
      ghost var was, new' := active, incoming;
      hide TurnStart, Placed, PostAll, S.NewJob;
      RunTurn(now, first, again);
      assert forall i :: 0 <= i < |active| ==> active[i].View() == Views(active)[i];
    }

    method RunTurn(now: int, first: seq<S.BeginAnswers>, again: seq<S.BeginAnswers>)
      requires Owns(active) && Owns(incoming) && Apart(active, incoming)
      requires |first| == |incoming| && |again| == |active| + |incoming|
      modifies this, active, incoming, queue, store
      ensures active == old(active) + old(incoming) && Owns(active)
      ensures incoming == [] && cancelRequests == [] && consumeRequests == []
      ensures var r := TurnStart(old(Views(active)), old(Views(incoming)), old(store.files),
                                 old(cancelRequests), old(consumeRequests), now, first, again);
              && Views(active) == r.jobs
              && queue.View() == PostAll(old(queue.View()), r.posts) && store.files == r.disk
    {
      hide PostAll, Views, AdmitAll, CancelAll, ConsumeAll, RetryAll, Owns, AllApart, Apart;
      ghost var v, disk, posted := Views(active), store.files, queue.View();
      var jobs, cancels, consumes := TakePending();
      assert Views(active) == v && Views(jobs) == old(Views(incoming));
      ghost var admitted := AdmitAll(Views(jobs), disk, first);
      AdmitIncoming(jobs, first);
      assert Views(active) == v + admitted.jobs;
      ghost var cancelled := CancelAll(v + admitted.jobs, cancels);
      ApplyCancellations(cancels);
      assert Views(active) == cancelled.jobs;
      PostAllConcat(posted, admitted.posts, cancelled.posts);
      ApplyConsumed(consumes);
      assert Views(active) == ConsumeAll(cancelled.jobs, consumes);
      ghost var retried := RetryAll(Views(active), store.files, now, again);
      PostAllConcat(posted, admitted.posts + cancelled.posts, retried.posts);
      StartDueRetries(now, again);
    }

    /** The turn after curl_multi_perform: completions are handled, finished jobs leave the list. */
    method EndTurn(messages: seq<DoneMessage>, ghost bound: int)
      requires Ready(bound) && Deliverable(Views(active), messages)
      modifies `active, active, queue, store
      ensures Ready(bound) && forall i :: 0 <= i < |active| ==> !active[i].finished
      ensures var r := ReapAll(old(Views(active)), old(store.files), messages);
              && Views(active) == Kept(r.jobs)
              && queue.View() == PostAll(old(queue.View()), r.posts) && store.files == r.disk
    {
      ViewsAreDistinct(active);
      TurnEndsUnfinished(Views(active), store.files, messages);
      hide ReapAll, Kept, PostAll, Placed, S.NewJob, Owns, AllApart, Deliverable;
      ghost var was := active;
      FinishTurn(messages);
      FewerStayApart(was, active, incoming, bound);
      hide Apart;
      forall i | 0 <= i < |active| ensures Placed(active[i].View()) && !active[i].finished {
        ViewAt(active, i);
      }
    }

    method FinishTurn(messages: seq<DoneMessage>)
      requires Owns(active) && Apart(active, incoming) && Deliverable(Views(active), messages)
      modifies `active, active, queue, store
      ensures Owns(active) && forall i :: 0 <= i < |active| ==> active[i] in old(active)
      ensures forall i :: 0 <= i < |incoming| ==> incoming[i].View() == old(incoming[i].View())
      ensures var r := ReapAll(old(Views(active)), old(store.files), messages);
              && Views(active) == Kept(r.jobs)
              && queue.View() == PostAll(old(queue.View()), r.posts) && store.files == r.disk
    {
      hide ReapAll, Kept, PostAll, Views, Owns, AllApart, Deliverable;
      ReapCompleted(messages);
      RemoveFinished();
    }

    /** Some of the active jobs, as far from the waiting ones as all of them. */
    lemma FewerStayApart(was: seq<Job>, now: seq<Job>, waiting: seq<Job>, bound: int)
      requires Apart(was, waiting) && forall i :: 0 <= i < |was| ==> was[i].spec.id < bound
      requires forall i :: 0 <= i < |now| ==> now[i] in was
      ensures Apart(now, waiting) && forall i :: 0 <= i < |now| ==> now[i].spec.id < bound
    {
    }

    /** How long the poll may sleep: not past the next retry, and never more than a second. */
    method ComputeWaitMs(now: int) returns (waitMs: int)
      ensures 0 <= waitMs <= 1000
      ensures forall i :: 0 <= i < |active| && active[i].waitingForRetry ==> waitMs <= S.Max(0, active[i].retryAt - now)
      ensures waitMs == 1000
           || exists i :: 0 <= i < |active| && active[i].waitingForRetry && waitMs == S.Max(0, active[i].retryAt - now)
    {
      waitMs := MAX_WAIT_MS;
      var n := 0;
      while n < |active|
        invariant n <= |active| && 0 <= waitMs <= MAX_WAIT_MS
        invariant forall i :: 0 <= i < n && active[i].waitingForRetry ==> waitMs <= S.Max(0, active[i].retryAt - now)
        invariant waitMs == MAX_WAIT_MS
               || exists i :: 0 <= i < n && active[i].waitingForRetry && waitMs == S.Max(0, active[i].retryAt - now)
      {
        if active[n].waitingForRetry {
          waitMs := S.Min(waitMs, S.Max(0, active[n].retryAt - now));
        }
        n := n + 1;
      }
    }

    /** RemoveFinished keeps the unfinished jobs, in order. */
    method RemoveFinished()
      requires Owns(active)
      modifies `active
      ensures active == Unfinished(old(active)) && Owns(active)
      ensures Views(active) == Kept(old(Views(active)))
      ensures forall j :: j in active <==> j in old(active) && !j.finished
      ensures forall i :: 0 <= i < |active| ==> active[i] in old(active)
    {
      var kept: seq<Job> := [];
      var n := 0;
      while n < |active|
        invariant n <= |active| && active == old(active)
        invariant kept == Unfinished(active[..n])
      {
        assert active[..n + 1][..n] == active[..n];
        if !active[n].finished {
          kept := kept + [active[n]];
        }
        n := n + 1;
      }
      assert active[..n] == active;
      UnfinishedMembers(active);
      UnfinishedIsKept(active);
      forall i | 0 <= i < |kept| ensures kept[i].queue == queue && kept[i].store == store {
        assert kept[i] in kept;
      }
      active := kept;
    }

    /** Stop, once the thread has been joined: every active job is cancelled, and jobs never admitted are
        destroyed unstarted. The main thread disables the queue first, so nothing is posted to it. */
    method Stop()
      requires Owns(active)
      modifies `active, `incoming, active, queue
      ensures active == [] && incoming == []
      ensures forall i :: 0 <= i < |old(active)| ==>
                old(active)[i].finished && old(active)[i].View() == S.Cancel(old(active[i].View())).job
      ensures !old(queue.enabled) ==> queue.View() == old(queue.View())
    {
      hide S.Cancel;
      ghost var was := active;
      var n := 0;
      while n < |active|
        invariant n <= |active| && active == was
        invariant forall i :: 0 <= i < n ==> was[i].finished && was[i].View() == S.Cancel(old(was[i].View())).job
        invariant forall i :: n <= i < |was| ==> was[i].View() == old(was[i].View())
        invariant !old(queue.enabled) ==> queue.View() == old(queue.View())
      {
        S.CancelShape(active[n].View());
        active[n].Cancel();
        n := n + 1;
      }
      active := [];
      incoming := [];
    }
  }

  function Unfinished(jobs: seq<Job>): seq<Job>
    reads jobs
  {
    if jobs == [] then []
    else Unfinished(jobs[..|jobs| - 1]) + (if jobs[|jobs| - 1].finished then [] else [jobs[|jobs| - 1]])
  }

  ghost predicate AllApart(jobs: seq<Job>) {
    forall i, k :: 0 <= i < k < |jobs| ==> jobs[i] != jobs[k] && jobs[i].spec.id != jobs[k].spec.id
  }

  /** Exactly the unfinished jobs are kept, each once. */
  lemma {:induction false} UnfinishedMembers(jobs: seq<Job>)
    ensures forall i :: 0 <= i < |Unfinished(jobs)| ==> Unfinished(jobs)[i] in jobs && !Unfinished(jobs)[i].finished
    ensures forall k :: 0 <= k < |jobs| && !jobs[k].finished ==> jobs[k] in Unfinished(jobs)
    ensures AllApart(jobs) ==> AllApart(Unfinished(jobs))
  {
    if jobs != [] {
      var init := jobs[..|jobs| - 1];
      UnfinishedMembers(init);
      assert jobs == init + [jobs[|jobs| - 1]];
    }
  }

  lemma {:induction false} UnfinishedIsKept(jobs: seq<Job>)
    ensures Views(Unfinished(jobs)) == Kept(Views(jobs))
  {
    if jobs != [] {
      var init := jobs[..|jobs| - 1];
      UnfinishedIsKept(init);
      assert Views(jobs)[..|jobs| - 1] == Views(init);
    }
  }

  lemma CancelledAndPlaced(jobs: seq<S.Job>, requests: seq<int>)
    requires DistinctIds(jobs) && forall i :: 0 <= i < |jobs| ==> Placed(jobs[i])
    ensures var after := CancelAll(jobs, requests).jobs;
            |after| == |jobs| && DistinctIds(after)
            && forall i :: 0 <= i < |jobs| ==>
                 Placed(after[i]) && after[i].spec == jobs[i].spec
                 && (jobs[i].spec.id in requests ==> after[i].finished && !after[i].waitingForRetry)
  {
    hide S.Cancel;
    var after := CancelAll(jobs, requests).jobs;
    CancelAllKeepsLength(jobs, requests);
    forall i | 0 <= i < |jobs|
      ensures Placed(after[i]) && after[i].spec == jobs[i].spec
      ensures jobs[i].spec.id in requests ==> after[i].finished && !after[i].waitingForRetry
    {
      CancelAllReachesEveryJob(jobs, requests, i);
      CancelPlaces(jobs[i]);
      S.CancelShape(jobs[i]);
    }
  }

  lemma CancelStartsNothing(jobs: seq<S.Job>, requests: seq<int>, i: nat)
    requires DistinctIds(jobs) && i < |jobs|
    ensures var after := CancelAll(jobs, requests).jobs;
            |after| == |jobs| && after[i].attempt == jobs[i].attempt
            && (after[i].waitingForRetry ==> jobs[i].waitingForRetry)
  {
    CancelAllReachesEveryJob(jobs, requests, i);
  }

  lemma {:induction false} CancelAllKeepsLength(jobs: seq<S.Job>, requests: seq<int>)
    ensures |CancelAll(jobs, requests).jobs| == |jobs|
  {
    if requests != [] {
      CancelAllKeepsLength(jobs, requests[..|requests| - 1]);
    }
  }

  lemma {:induction false} ConsumedAndPlaced(jobs: seq<S.Job>, requests: seq<ConsumeRequest>)
    requires forall i :: 0 <= i < |jobs| ==> Placed(jobs[i])
    ensures var after := ConsumeAll(jobs, requests);
            |after| == |jobs|
            && forall i :: 0 <= i < |jobs| ==> Placed(after[i]) && after[i] == jobs[i].(stream := after[i].stream)
  {
    if requests != [] {
      hide S.OnStreamConsumed;
      var before := ConsumeAll(jobs, requests[..|requests| - 1]);
      ConsumedAndPlaced(jobs, requests[..|requests| - 1]);
      var request := requests[|requests| - 1];
      var i := FindActive(before, request.0);
      if i < |before| {
        S.ConsumedShape(before[i], request.1);
      }
    }
  }

  lemma DoneReleases(j: S.Job, disk: S.Disk, a: S.DoneAnswers)
    requires Placed(j) && j.attached
    ensures var j' := S.OnAttemptDone(j, disk, a).0.job;
            Placed(j') && !j'.attached && j'.attempt == j.attempt && j'.spec == j.spec
                && (j'.finished || j'.waitingForRetry)
  {
    DonePlaces(j, disk, a);
    S.DoneShape(j, disk, a);
    hide S.DoneVerdict, S.DiskAfterDone, S.RetryDelay;
  }

  /** Each admitted job has made its first attempt, and is finished exactly when that could not start. */
  lemma {:induction false} AdmitPlaces(jobs: seq<S.Job>, disk: S.Disk, answers: seq<S.BeginAnswers>, i: nat)
    requires |answers| == |jobs| && i < |jobs| && jobs[i] == S.NewJob(jobs[i].spec)
    ensures var j := AdmitAll(jobs, disk, answers).jobs[i];
            && Placed(j) && j.attempt == 1 && j.spec == jobs[i].spec && !j.waitingForRetry
            && (j.finished <==> S.BeginFailure(jobs[i], answers[i]).Some?)
  {
    var n := |jobs| - 1;
    if i < n {
      AdmitPlaces(jobs[..n], disk, answers[..n], i);
    } else {
      var before := AdmitAll(jobs[..n], disk, answers[..n]);
      S.BeginShape(jobs[n], before.disk, answers[n]);
      BeginPlaces(jobs[n], before.disk, answers[n]);
    }
    hide S.BeginAttempt, S.BeginFailure, Placed;
  }

  /** A due retry begins exactly one new attempt; no other job changes. */
  lemma {:induction false} RetryPlaces(jobs: seq<S.Job>, disk: S.Disk, now: int, answers: seq<S.BeginAnswers>, i: nat)
    requires |answers| == |jobs| && i < |jobs| && Placed(jobs[i])
    ensures var j := RetryAll(jobs, disk, now, answers).jobs[i];
            && Placed(j) && j.spec == jobs[i].spec
            && (RetryDue(jobs[i], now) ==> j.attempt == jobs[i].attempt + 1 && !j.waitingForRetry)
            && (!RetryDue(jobs[i], now) ==> j == jobs[i])
  {
    var n := |jobs| - 1;
    if i < n {
      RetryPlaces(jobs[..n], disk, now, answers[..n], i);
    } else if RetryDue(jobs[n], now) {
      var before := RetryAll(jobs[..n], disk, now, answers[..n]);
      S.BeginShape(jobs[n], before.disk, answers[n]);
      BeginPlaces(jobs[n], before.disk, answers[n]);
    }
    hide S.BeginAttempt, S.BeginFailure, Placed;
  }

  predicate Named(messages: seq<DoneMessage>, i: nat) {
    exists m :: 0 <= m < |messages| && messages[m].0 == i
  }

  lemma NamedSnoc(messages: seq<DoneMessage>, i: nat)
    requires messages != []
    ensures Named(messages, i) <==> Named(messages[..|messages| - 1], i) || messages[|messages| - 1].0 == i
  {
    var init := messages[..|messages| - 1];
    if m :| 0 <= m < |init| && init[m].0 == i {
      assert messages[m].0 == i;
    }
    if m :| 0 <= m < |messages| && messages[m].0 == i {
      assert m < |init| ==> init[m].0 == i;
    }
  }

  /** Each transfer that is done leaves its job finished or waiting; no other job changes. */
  lemma {:induction false} ReapPlaces(jobs: seq<S.Job>, disk: S.Disk, messages: seq<DoneMessage>, i: nat)
    requires Deliverable(jobs, messages) && i < |jobs| && Placed(jobs[i])
    ensures var j := ReapAll(jobs, disk, messages).jobs[i];
            && Placed(j) && j.spec == jobs[i].spec
            && (Named(messages, i) ==> !j.attached && j.attempt == jobs[i].attempt)
            && (!Named(messages, i) ==> j == jobs[i])
  {
    hide S.OnAttemptDone, Placed, Named;
    if messages != [] {
      var n := |messages| - 1;
      var before := ReapAll(jobs, disk, messages[..n]);
      ReapPlaces(jobs, disk, messages[..n], i);
      NamedSnoc(messages, i);
      if messages[n].0 == i {
        LastIsNew(messages, n);
        DoneReleases(before.jobs[i], before.disk, messages[n].1);
      }
    } else {
      NobodyNamed(i);
    }
  }

  lemma LastIsNew(messages: seq<DoneMessage>, n: nat)
    requires n < |messages| && forall k, m :: 0 <= k < m < |messages| ==> messages[k].0 != messages[m].0
    ensures !Named(messages[..n], messages[n].0)
  {
  }

  lemma NobodyNamed(i: nat)
    ensures !Named([], i)
  {
  }

  /** In one turn every cancel that was in the mailbox finds its job, even one handed over just before it;
      every job is left in one place, at most one attempt further on. */
  lemma TurnPlacesEveryJob(active: seq<S.Job>, incoming: seq<S.Job>, disk: S.Disk, cancels: seq<int>,
                           consumes: seq<ConsumeRequest>, now: int, first: seq<S.BeginAnswers>,
                               again: seq<S.BeginAnswers>, i: nat)
    requires |first| == |incoming| && |again| == |active| + |incoming| && i < |active| + |incoming|
    requires forall k :: 0 <= k < |active| ==> Placed(active[k])
    requires forall k :: 0 <= k < |incoming| ==> incoming[k] == S.NewJob(incoming[k].spec)
    requires DistinctIds(active + incoming)
    ensures var was := (active + incoming)[i];
            var r := TurnStart(active, incoming, disk, cancels, consumes, now, first, again);
            && |r.jobs| == |active| + |incoming|
            && Placed(r.jobs[i]) && r.jobs[i].spec == was.spec
            && (was.spec.id in cancels ==> r.jobs[i].finished)
            && was.attempt <= r.jobs[i].attempt <= was.attempt + 1
  {
    hide Placed, S.NewJob, RetryDue, S.Cancel;
    var admitted := AdmitAll(incoming, disk, first);
    var list := active + admitted.jobs;
    forall k | 0 <= k < |list|
      ensures Placed(list[k]) && list[k].spec == (active + incoming)[k].spec
      ensures if k < |active| then list[k] == active[k] else list[k].attempt == 1 && !list[k].waitingForRetry
    {
      if k >= |active| {
        AdmitPlaces(incoming, disk, first, k - |active|);
      }
    }
    CancelledAndPlaced(list, cancels);
    var cancelled := CancelAll(list, cancels).jobs;
    ConsumedAndPlaced(cancelled, consumes);
    var consumed := ConsumeAll(cancelled, consumes);
    RetryPlaces(consumed, admitted.disk, now, again, i);
    FinishedIsNotDue(consumed[i], now);
    NewHasNoAttempt(i, active, incoming);
    CancelStartsNothing(list, cancels, i);
  }

  lemma OneMore(before: seq<Job>, jobs: seq<Job>, n: nat)
    requires n < |jobs|
    ensures before + jobs[..n] + [jobs[n]] == before + jobs[..n + 1]
  {
  }

  lemma ViewAt(jobs: seq<Job>, i: nat)
    requires i < |jobs|
    ensures Views(jobs)[i] == jobs[i].View()
  {
  }

  lemma ViewsConcat(a: seq<Job>, b: seq<Job>)
    ensures Views(a + b) == Views(a) + Views(b)
  {
  }

  lemma ViewsAreDistinct(jobs: seq<Job>)
    requires AllApart(jobs)
    ensures DistinctIds(Views(jobs))
  {
  }

  lemma TurnIsReady(active: seq<S.Job>, incoming: seq<S.Job>, disk: S.Disk, cancels: seq<int>,
                    consumes: seq<ConsumeRequest>, now: int, first: seq<S.BeginAnswers>, again: seq<S.BeginAnswers>)
    requires |first| == |incoming| && |again| == |active| + |incoming|
    requires forall k :: 0 <= k < |active| ==> Placed(active[k])
    requires forall k :: 0 <= k < |incoming| ==> incoming[k] == S.NewJob(incoming[k].spec)
    requires DistinctIds(active + incoming)
    ensures var r := TurnStart(active, incoming, disk, cancels, consumes, now, first, again);
            forall i :: 0 <= i < |r.jobs| ==> Placed(r.jobs[i])
  {
    hide Placed, S.NewJob, TurnStart;
    var r := TurnStart(active, incoming, disk, cancels, consumes, now, first, again);
    TurnKeepsLength(active, incoming, disk, cancels, consumes, now, first, again);
    forall i | 0 <= i < |r.jobs| ensures Placed(r.jobs[i]) {
      TurnPlacesEveryJob(active, incoming, disk, cancels, consumes, now, first, again, i);
    }
  }

  lemma TurnKeepsLength(active: seq<S.Job>, incoming: seq<S.Job>, disk: S.Disk, cancels: seq<int>,
                        consumes: seq<ConsumeRequest>, now: int, first: seq<S.BeginAnswers>, again: seq<S.BeginAnswers>)
    requires |first| == |incoming| && |again| == |active| + |incoming|
    ensures |TurnStart(active, incoming, disk, cancels, consumes, now, first, again).jobs| == |active| + |incoming|
  {
    var admitted := AdmitAll(incoming, disk, first);
    CancelAllKeepsLength(active + admitted.jobs, cancels);
    ConsumeAllKeepsLength(CancelAll(active + admitted.jobs, cancels).jobs, consumes);
  }

  lemma FinishedIsNotDue(j: S.Job, now: int)
    requires Placed(j)
    ensures j.finished || !j.waitingForRetry ==> !RetryDue(j, now)
  {
  }

  lemma NewHasNoAttempt(i: nat, active: seq<S.Job>, incoming: seq<S.Job>)
    requires i < |active| + |incoming|
    requires forall k :: 0 <= k < |incoming| ==> incoming[k] == S.NewJob(incoming[k].spec)
    ensures i >= |active| ==> (active + incoming)[i].attempt == 0
  {
  }

  /** Afterwards only unfinished jobs are active, each attached or waiting. */
  lemma TurnEndsUnfinished(jobs: seq<S.Job>, disk: S.Disk, messages: seq<DoneMessage>)
    requires Deliverable(jobs, messages) && DistinctIds(jobs) && forall k :: 0 <= k < |jobs| ==> Placed(jobs[k])
    ensures var list := Kept(ReapAll(jobs, disk, messages).jobs);
            && DistinctIds(list)
            && forall k :: 0 <= k < |list| ==> Placed(list[k]) && !list[k].finished
  {
    var reaped := ReapAll(jobs, disk, messages).jobs;
    forall k | 0 <= k < |reaped| ensures Placed(reaped[k]) && reaped[k].spec == jobs[k].spec {
      ReapPlaces(jobs, disk, messages, k);
    }
    hide ReapAll, Placed, Deliverable;
    KeptMembers(reaped);
  }

  lemma {:induction false} FindActiveIs(jobs: seq<S.Job>, id: int, i: nat)
    requires i <= |jobs|
    requires forall k :: 0 <= k < i ==> !(jobs[k].spec.id == id && !jobs[k].finished)
    requires i < |jobs| ==> jobs[i].spec.id == id && !jobs[i].finished
    ensures FindActive(jobs, id) == i
  {
  }
}
