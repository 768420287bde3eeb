/** A whole turn of the worker's loop, as the Worker object computes it, is a sequence of moves of the
    two-thread machine (src/transfer_thread.cpp:75-96). */
module TurnRefinement {
  import opened Maybe
  import opened Events
  import opened JobSpec
  import opened Live
  import opened System
  import opened WorkerRefinement
  import T = TransferThread
  import SystemTheorems

  /** The state after these moves, if each of them is possible when its turn comes. */
  function After(s: Sys, moves: seq<Move>): Option<Sys> {
    if moves == [] then Some(s)
    else
      match After(s, moves[..|moves| - 1])
      case None => None
      case Some(mid) => if Can(mid, moves[|moves| - 1]) then Some(Next(mid, moves[|moves| - 1])) else None
  }

  lemma AfterOneMore(s: Sys, moves: seq<Move>, mid: Sys, a: Move)
    requires After(s, moves) == Some(mid) && Can(mid, a)
    ensures After(s, moves + [a]) == Some(Next(mid, a))
  {
    hide Can, Next;
    assert (moves + [a])[..|moves|] == moves;
  }

  lemma {:induction false} AfterBoth(s: Sys, a: seq<Move>, mid: Sys, b: seq<Move>)
    requires After(s, a) == Some(mid)
    ensures After(s, a + b) == After(mid, b)
  {
    hide Can, Next;
    if b == [] {
      assert a + b == a;
    } else {
      AfterBoth(s, a, mid, b[..|b| - 1]);
      assert (a + b)[..|a + b| - 1] == a + b[..|b| - 1];
    }
  }

  /** From `s`, some moves lead to `s'`, which satisfies the invariant and whose active jobs are `list`. */
  ghost predicate Leads(s: Sys, moves: seq<Move>, s': Sys, list: seq<Job>) {
    After(s, moves) == Some(s') && Inv(s') && Matches(s', list)
  }

  lemma LeadsOneMore(s: Sys, moves: seq<Move>, mid: Sys, list: seq<Job>, a: Move, s': Sys, list': seq<Job>)
    requires Can(mid, a) && s' == Next(mid, a) && list' == ListAfter(mid, list, a)
    requires Leads(s, moves, mid, list)
    ensures Leads(s, moves + [a], s', list')
  {
    hide Inv, Matches, Can, Next, ListAfter, After;
    AfterOneMore(s, moves, mid, a);
    NextKeeps(mid, a);
    StepMatches(mid, list, a);
  }

  lemma LeadsBoth(s: Sys, a: seq<Move>, mid: Sys, list: seq<Job>, b: seq<Move>, s': Sys, list': seq<Job>)
    requires Leads(s, a, mid, list) && Leads(mid, b, s', list')
    ensures Leads(s, a + b, s', list')
  {
    hide Inv, Matches, Can, Next, After;
    AfterBoth(s, a, mid, b);
  }

  // ---------------------------------------------------------------- steps of one job

  /** What the rest of the system sees of a job's step: more on the queue, and the disk. */
  predicate Beside(s: Sys, s': Sys) {
    && s'.pc == s.pc && s'.main == s.main && s'.batch == s.batch
    && s'.cancels == s.cancels && s'.credits == s.credits
    && s'.workCancels == s.workCancels && s'.workCredits == s.workCredits
    && s'.jobs.Keys == s.jobs.Keys
  }

  lemma BeginStep(l: Live, disk: Disk, begin: BeginAnswers, body: string, status: int)
    requires Enabled(l, Begin(begin, body, status))
    ensures var (l', disk') := Step(l, disk, Begin(begin, body, status));
            var (o, d) := BeginAttempt(l.job, disk, begin);
            l'.job == o.job && disk' == d && Posts(l, l') == o.posts
  {
    hide BeginAttempt;
  }

  lemma DoneStep(l: Live, disk: Disk, d: DoneAnswers)
    requires Enabled(l, Done(d))
    ensures var (l', disk') := Step(l, disk, Done(d));
            var (o, after) := OnAttemptDone(l.job, disk, d);
            l'.job == o.job && disk' == after && Posts(l, l') == o.posts
  {
    hide OnAttemptDone;
  }

  /** A job that has not begun, or is waiting, may begin, whatever comes back. */
  lemma MayBegin(l: Live, begin: BeginAnswers, body: string, status: int)
    requires LiveInv(l) && (l.job.attempt == 0 || l.job.waitingForRetry)
    ensures Enabled(l, Begin(begin, body, status))
  {
  }

  /** One job step as a move, on the list and on the rest of the system. */
  lemma OneStep(s: Sys, moves: seq<Move>, mid: Sys, list: seq<Job>, id: int, a: Label, s': Sys, l': Live,
      list': seq<Job>)
    requires !a.Consumed? && !a.CancelNow? && CanJobStep(mid, id, a)
    requires s' == DoJobStep(mid, id, a) && (l', s'.disk) == Step(mid.jobs[id].live, mid.disk, a)
    requires list' == var i := T.FindActive(list, id); if i == |list| then list + [l'.job] else list[i := l'.job]
    requires Leads(s, moves, mid, list)
    ensures Leads(s, moves + [JobStep(id, a)], s', list')
    ensures Beside(mid, s') && id in mid.jobs && s'.queue == mid.queue + Posts(mid.jobs[id].live, l')
    ensures id in s'.jobs && s'.jobs[id].live == l' && s'.jobs[id].place == Active && l'.job.spec.id == id
    ensures forall k :: k in mid.jobs && k != id ==> k in s'.jobs && s'.jobs[k] == mid.jobs[k]
  {
    hide Inv, Matches, Step, Enabled, JobsOk, DoJobStep, Posts;
    LeadsOneMore(s, moves, mid, list, JobStep(id, a), s', list');
    InvMeansJobsOk(mid);
    JobStepFrame(mid, id, a);
    JobStepEffect(mid, id, a);
  }

  /** The attempt the worker starts for a job that is new or due. */
  lemma BeginMove(s: Sys, moves: seq<Move>, mid: Sys, list: seq<Job>, j: Job, begin: BeginAnswers, wire: Answer,
                  list': seq<Job>) returns (s': Sys)
    requires j.spec.id in mid.jobs && mid.jobs[j.spec.id].live.job == j
    requires (mid.pc == Admitting && mid.jobs[j.spec.id].place == Taken)
          || (mid.pc == Running && mid.jobs[j.spec.id].place == Active && j.waitingForRetry)
    requires list' == var (i, job) := (T.FindActive(list, j.spec.id), BeginAttempt(j, mid.disk, begin).0.job);
                      if i == |list| then list + [job] else list[i := job]
    requires Leads(s, moves, mid, list)
    ensures Leads(s, moves + [JobStep(j.spec.id, Begin(begin, wire.0, wire.1))], s', list')
    ensures Beside(mid, s') && s'.queue == mid.queue + BeginAttempt(j, mid.disk, begin).0.posts
    ensures s'.disk == BeginAttempt(j, mid.disk, begin).1
    ensures j.spec.id in s'.jobs && s'.jobs[j.spec.id].place == Active
    ensures forall k :: k in mid.jobs && k != j.spec.id ==> k in s'.jobs && s'.jobs[k] == mid.jobs[k]
  {
    hide Inv, Matches, Step, Enabled, BeginAttempt, Posts, After, T.FindActive, LiveInv;
    var id, a := j.spec.id, Begin(begin, wire.0, wire.1);
    InvMeansJobsOk(mid);
    assert JobOk(mid.jobs[id], id);
    MayBegin(mid.jobs[id].live, begin, wire.0, wire.1);
    BeginStep(mid.jobs[id].live, mid.disk, begin, wire.0, wire.1);
    s' := DoJobStep(mid, id, a);
    OneStep(s, moves, mid, list, id, a, s', Step(mid.jobs[id].live, mid.disk, a).0, list');
  }

  // ---------------------------------------------------------------- the phases of a turn

  /** Body and status of the response an attempt will get. */
  type Answer = (string, int)

  predicate Held(s: Sys, j: Job, place: Place) {
    j.spec.id in s.jobs && s.jobs[j.spec.id].place == place && s.jobs[j.spec.id].live.job == j
  }

  /** AdmitIncoming is one Begin move for each new job. */
  lemma {:induction false} AdmitMoves(s: Sys, list: seq<Job>, incoming: seq<Job>, answers: seq<BeginAnswers>,
                                      wires: seq<Answer>) returns (moves: seq<Move>, s': Sys)
    requires |answers| == |incoming| == |wires| && T.DistinctIds(incoming) && s.pc == Admitting
    requires forall i :: 0 <= i < |incoming| ==> Held(s, incoming[i], Taken)
    requires Inv(s) && Matches(s, list)
    ensures Leads(s, moves, s', list + T.AdmitAll(incoming, s.disk, answers).jobs) && Beside(s, s')
    ensures s'.queue == s.queue + T.AdmitAll(incoming, s.disk, answers).posts
    ensures s'.disk == T.AdmitAll(incoming, s.disk, answers).disk
    ensures forall k :: k in s.jobs && !Listed(incoming, k) ==> s'.jobs[k] == s.jobs[k]
    ensures forall k :: k in s'.jobs && Listed(incoming, k) ==> s'.jobs[k].place == Active
  {
    hide Inv, Matches, BeginAttempt, Listed, Leads, T.AdmitAll, Held;
    if incoming == [] {
      moves, s' := [], s;
      NoneListed(s, list, answers);
    } else {
      var n := |incoming| - 1;
      ListedSnoc(incoming);
      LastIsAlone(incoming);
      var first, mid := AdmitMoves(s, list, incoming[..n], answers[..n], wires[..n]);
      HeldIsThere(s, incoming[n], Taken);
      StillHeld(s, mid, incoming[n], Taken);
      AdmitUnfolds(incoming, s.disk, answers);
      s' := AdmitMove(s, first, mid, list + T.AdmitAll(incoming[..n], s.disk, answers[..n]).jobs,
                      incoming[n], answers[n], wires[n]);
      moves := first + [JobStep(incoming[n].spec.id, Begin(answers[n], wires[n].0, wires[n].1))];
      var before := T.AdmitAll(incoming[..n], s.disk, answers[..n]);
      var o := BeginAttempt(incoming[n], mid.disk, answers[n]).0;
      Joined(list, before.jobs, [o.job], s.queue, before.posts, o.posts);
    }
  }

  lemma Joined(a: seq<Job>, b: seq<Job>, c: seq<Job>, q: seq<Event>, p: seq<Event>, r: seq<Event>)
    ensures a + b + c == a + (b + c) && q + p + r == q + (p + r)
  {
  }

  lemma NoneListed(s: Sys, list: seq<Job>, answers: seq<BeginAnswers>)
    requires answers == []
    requires Inv(s) && Matches(s, list)
    ensures Leads(s, [], s, list + T.AdmitAll([], s.disk, answers).jobs)
    ensures T.AdmitAll([], s.disk, answers) == T.Turned([], [], s.disk) && s.queue + [] == s.queue
    ensures forall id :: !Listed([], id)
  {
    hide Inv, Matches;
    assert list + [] == list;
  }

  lemma AdmitUnfolds(incoming: seq<Job>, disk: Disk, answers: seq<BeginAnswers>)
    requires |answers| == |incoming| > 0
    ensures var n := |incoming| - 1;
            var before := T.AdmitAll(incoming[..n], disk, answers[..n]);
            var (o, disk') := BeginAttempt(incoming[n], before.disk, answers[n]);
            T.AdmitAll(incoming, disk, answers) == T.Turned(before.jobs + [o.job], before.posts + o.posts, disk')
  {
    hide BeginAttempt;
  }

  /** A new job joins the list at its end. */
  lemma AdmitMove(s: Sys, moves: seq<Move>, mid: Sys, list: seq<Job>, j: Job, begin: BeginAnswers, wire: Answer)
    returns (s': Sys)
    requires mid.pc == Admitting && Held(mid, j, Taken)
    requires Leads(s, moves, mid, list)
    ensures Leads(s, moves + [JobStep(j.spec.id, Begin(begin, wire.0, wire.1))], s',
                  list + [BeginAttempt(j, mid.disk, begin).0.job])
    ensures Beside(mid, s') && s'.queue == mid.queue + BeginAttempt(j, mid.disk, begin).0.posts
    ensures s'.disk == BeginAttempt(j, mid.disk, begin).1
    ensures j.spec.id in s'.jobs && s'.jobs[j.spec.id].place == Active
    ensures forall k :: k in mid.jobs && k != j.spec.id ==> k in s'.jobs && s'.jobs[k] == mid.jobs[k]
  {
    hide Inv, BeginAttempt, After, T.FindActive;
    assert Matches(mid, list);
    FoundAlike(mid, list, j.spec.id);
    hide Matches;
    s' := BeginMove(s, moves, mid, list, j, begin, wire, list + [BeginAttempt(j, mid.disk, begin).0.job]);
  }

  lemma LeadsMatches(s: Sys, moves: seq<Move>, s': Sys, list: seq<Job>)
    requires Leads(s, moves, s', list)
    ensures Matches(s', list) && Inv(s') && T.DistinctIds(list)
    ensures forall i :: 0 <= i < |list| ==> Held(s', list[i], Active)
  {
    hide Inv, After;
    forall i | 0 <= i < |list| ensures Held(s', list[i], Active) {
      assert Holds(s', list[i]);
    }
  }

  lemma ListedSnoc(list: seq<Job>)
    requires list != []
    ensures forall id :: Listed(list, id) <==> Listed(list[..|list| - 1], id) || list[|list| - 1].spec.id == id
  {
    var init := list[..|list| - 1];
    forall id ensures Listed(list, id) <==> Listed(init, id) || list[|list| - 1].spec.id == id {
      if i :| 0 <= i < |init| && init[i].spec.id == id {
        assert list[i].spec.id == id;
      }
      if i :| 0 <= i < |list| && list[i].spec.id == id {
        assert i < |init| ==> init[i].spec.id == id;
      }
    }
  }

  lemma LastIsAlone(list: seq<Job>)
    requires T.DistinctIds(list) && list != []
    ensures !Listed(list[..|list| - 1], list[|list| - 1].spec.id) && T.DistinctIds(list[..|list| - 1])
  {
  }

  /** ApplyCancellations is one CancelNext move for each request. */
  lemma {:induction false} CancelMoves(s: Sys, list: seq<Job>, n: nat) returns (moves: seq<Move>, s': Sys)
    requires s.pc == Cancelling && n <= |s.workCancels|
    requires Inv(s) && Matches(s, list)
    ensures Leads(s, moves, s', T.CancelAll(list, s.workCancels[..n]).jobs)
    ensures s'.workCancels == s.workCancels[n..] && s'.queue == s.queue + T.CancelAll(list, s.workCancels[..n]).posts
    ensures s'.pc == s.pc && s'.disk == s.disk && s'.workCredits == s.workCredits
    ensures s'.main == s.main && s'.batch == s.batch && s'.cancels == s.cancels && s'.credits == s.credits
  {
    hide Inv, Matches, Leads, T.CancelOne, T.CancelAll;
    CancelUnfolds(list, s.workCancels, n);
    if n == 0 {
      moves, s' := [], s;
      LeadsNowhere(s, list);
      assert s.queue + [] == s.queue;
    } else {
      var first, mid := CancelMoves(s, list, n - 1);
      var before := T.CancelAll(list, s.workCancels[..n - 1]);
      var one := T.CancelOne(before.jobs, s.workCancels[n - 1]);
      s' := CancelMove(s, first, mid, before.jobs);
      moves := first + [CancelNext];
      Joined([], [], [], s.queue, before.posts, one.posts);
    }
  }

  lemma CancelUnfolds(list: seq<Job>, requests: seq<int>, n: nat)
    requires n <= |requests|
    ensures n == 0 ==> T.CancelAll(list, requests[..n]) == T.Outcome(list, [])
    ensures n > 0 ==> var before := T.CancelAll(list, requests[..n - 1]);
                      var one := T.CancelOne(before.jobs, requests[n - 1]);
                      T.CancelAll(list, requests[..n]) == T.Outcome(one.jobs, before.posts + one.posts)
  {
    hide T.CancelOne;
    assert n > 0 ==> requests[..n][..n - 1] == requests[..n - 1];
  }

  lemma CancelMove(s: Sys, moves: seq<Move>, mid: Sys, list: seq<Job>) returns (s': Sys)
    requires mid.pc == Cancelling && mid.workCancels != []
    requires Leads(s, moves, mid, list)
    ensures Leads(s, moves + [CancelNext], s', T.CancelOne(list, mid.workCancels[0]).jobs)
    ensures s'.workCancels == mid.workCancels[1..]
        && s'.queue == mid.queue + T.CancelOne(list, mid.workCancels[0]).posts
    ensures s'.pc == mid.pc && s'.disk == mid.disk && s'.workCredits == mid.workCredits
    ensures s'.main == mid.main && s'.batch == mid.batch && s'.cancels == mid.cancels && s'.credits == mid.credits
  {
    hide Inv, Matches, T.CancelOne, Step, Enabled, After, DoJobStep, CanJobStep, DoCancelNext, CanCancelNext;
    SystemTheorems.CancelGuard(mid);
    InvMeansJobsOk(mid);
    s' := DoCancelNext(mid);
    LeadsOneMore(s, moves, mid, list, CancelNext, s', T.CancelOne(list, mid.workCancels[0]).jobs);
    CancelNextPosts(mid, list);
    CancelFrame(mid);
  }

  lemma CancelFrame(s: Sys)
    requires CanCancelNext(s)
    ensures var s' := DoCancelNext(s);
            && s'.workCancels == s.workCancels[1..] && s'.disk == s.disk && s'.pc == s.pc
               && s'.workCredits == s.workCredits
            && s'.main == s.main && s'.batch == s.batch && s'.cancels == s.cancels && s'.credits == s.credits
  {
    if FindActive(s, s.workCancels[0]) {
      JobStepFrame(s, s.workCancels[0], CancelNow);
    }
    hide JobSpec.Cancel;
  }

  /** ApplyConsumed is one CreditNext move for each credit. */
  lemma {:induction false} CreditMoves(s: Sys, list: seq<Job>, n: nat) returns (moves: seq<Move>, s': Sys)
    requires s.pc == Crediting && n <= |s.workCredits|
    requires Inv(s) && Matches(s, list)
    ensures Leads(s, moves, s', T.ConsumeAll(list, s.workCredits[..n]))
    ensures s'.workCredits == s.workCredits[n..] && s'.queue == s.queue
    ensures s'.pc == s.pc && s'.disk == s.disk && s'.workCancels == s.workCancels
    ensures s'.main == s.main && s'.batch == s.batch && s'.cancels == s.cancels && s'.credits == s.credits
  {
    hide Inv, Matches, T.ConsumeOne;
    if n == 0 {
      moves, s' := [], s;
      assert s.workCredits[..0] == [];
    } else {
      var first, mid := CreditMoves(s, list, n - 1);
      assert s.workCredits[..n][..n - 1] == s.workCredits[..n - 1];
      s' := CreditMove(s, first, mid, T.ConsumeAll(list, s.workCredits[..n - 1]));
      moves := first + [CreditNext];
    }
  }

  lemma CreditMove(s: Sys, moves: seq<Move>, mid: Sys, list: seq<Job>) returns (s': Sys)
    requires mid.pc == Crediting && mid.workCredits != []
    requires Leads(s, moves, mid, list)
    ensures Leads(s, moves + [CreditNext], s', T.ConsumeOne(list, mid.workCredits[0]))
    ensures s'.workCredits == mid.workCredits[1..] && s'.queue == mid.queue
    ensures s'.pc == mid.pc && s'.disk == mid.disk && s'.workCancels == mid.workCancels
    ensures s'.main == mid.main && s'.batch == mid.batch && s'.cancels == mid.cancels && s'.credits == mid.credits
  {
    hide Inv, Matches, T.ConsumeOne, Step, Enabled, After, DoJobStep, CanJobStep, DoCreditNext, CanCreditNext;
    SystemTheorems.CreditFits(mid);
    s' := DoCreditNext(mid);
    LeadsOneMore(s, moves, mid, list, CreditNext, s', T.ConsumeOne(list, mid.workCredits[0]));
    CreditFrame(mid);
  }

  lemma CreditFrame(s: Sys)
    requires CanCreditNext(s)
    ensures var s' := DoCreditNext(s);
            && s'.workCredits == s.workCredits[1..] && s'.queue == s.queue && s'.disk == s.disk && s'.pc == s.pc
            && s'.workCancels == s.workCancels
            && s'.main == s.main && s'.batch == s.batch && s'.cancels == s.cancels && s'.credits == s.credits
  {
    var (id, bytes) := s.workCredits[0];
    if FindActive(s, id) {
      JobStepFrame(s, id, Consumed(bytes));
    }
    hide OnStreamConsumed;
  }

  /** StartDueRetries is one Begin move for each job that is due. */
  lemma {:induction false} RetryMoves(s: Sys, list: seq<Job>, now: int, answers: seq<BeginAnswers>, wires: seq<Answer>,
                                      n: nat) returns (moves: seq<Move>, s': Sys)
    requires |answers| == |list| == |wires| && n <= |list| && s.pc == Running
    requires Inv(s) && Matches(s, list)
    ensures Leads(s, moves, s', T.RetriedSoFar(list, s.disk, now, answers, n).jobs) && Beside(s, s')
    ensures s'.queue == s.queue + T.RetriedSoFar(list, s.disk, now, answers, n).posts
    ensures s'.disk == T.RetriedSoFar(list, s.disk, now, answers, n).disk
  {
    hide Inv, Matches, Leads, BeginAttempt, T.RetriedSoFar;
    if n == 0 {
      moves, s' := [], s;
      T.RetryEnds(list, s.disk, now, answers);
      LeadsNowhere(s, list);
      assert s.queue + [] == s.queue;
    } else {
      var i := n - 1;
      var first, mid := RetryMoves(s, list, now, answers, wires, i);
      T.RetryStep(list, s.disk, now, answers, i);
      var before := T.RetriedSoFar(list, s.disk, now, answers, i);
      if T.RetryDue(list[i], now) {
        s' := RetryMove(s, first, mid, before.jobs, i, answers[i], wires[i]);
        moves := first + [JobStep(list[i].spec.id, Begin(answers[i], wires[i].0, wires[i].1))];
        Joined([], [], [], s.queue, before.posts, BeginAttempt(list[i], mid.disk, answers[i]).0.posts);
      } else {
        moves, s' := first, mid;
      }
    }
  }

  /** A waiting job keeps its place in the list. */
  lemma RetryMove(s: Sys, moves: seq<Move>, mid: Sys, list: seq<Job>, i: nat, begin: BeginAnswers, wire: Answer)
    returns (s': Sys)
    requires i < |list| && list[i].waitingForRetry && mid.pc == Running
    requires Leads(s, moves, mid, list)
    ensures Leads(s, moves + [JobStep(list[i].spec.id, Begin(begin, wire.0, wire.1))], s',
                  list[i := BeginAttempt(list[i], mid.disk, begin).0.job])
    ensures Beside(mid, s') && s'.queue == mid.queue + BeginAttempt(list[i], mid.disk, begin).0.posts
    ensures s'.disk == BeginAttempt(list[i], mid.disk, begin).1
  {
    hide Inv, Matches, BeginAttempt, After, Leads;
    LeadsMatches(s, moves, mid, list);
    assert Held(mid, list[i], Active);
    WaitingIsUnfinished(mid, list[i]);
    FoundAt(list, i);
    s' := BeginMove(s, moves, mid, list, list[i], begin, wire, list[i := BeginAttempt(list[i], mid.disk, begin).0.job]);
  }

  lemma WaitingIsUnfinished(s: Sys, j: Job)
    requires Held(s, j, Active)
    requires Inv(s)
    ensures j.waitingForRetry || j.attached ==> !j.finished
  {
    hide Inv;
    InvMeansJobsOk(s);
    assert JobOk(s.jobs[j.spec.id], j.spec.id);
  }

  lemma FoundAt(list: seq<Job>, i: nat)
    requires i < |list| && T.DistinctIds(list) && !list[i].finished
    ensures T.FindActive(list, list[i].spec.id) == i
  {
  }

  /** ReapCompleted is one Done move for each message that libcurl may send. */
  lemma {:induction false} ReapMoves(s: Sys, list: seq<Job>, messages: seq<T.DoneMessage>)
      returns (moves: seq<Move>, s': Sys)
    requires s.pc == Running && T.Deliverable(list, messages)
    requires forall m :: 0 <= m < |messages| ==>
               Held(s, list[messages[m].0], Active)
                   && CanFinish(s.jobs[list[messages[m].0].spec.id].live, messages[m].1)
    requires Inv(s) && Matches(s, list)
    ensures Leads(s, moves, s', T.ReapAll(list, s.disk, messages).jobs) && Beside(s, s')
    ensures s'.queue == s.queue + T.ReapAll(list, s.disk, messages).posts
    ensures s'.disk == T.ReapAll(list, s.disk, messages).disk
    ensures forall i :: 0 <= i < |list| && Held(s, list[i], Active) && !T.Named(messages, i) ==>
              T.ReapAll(list, s.disk, messages).jobs[i] == list[i]
              && list[i].spec.id in s'.jobs && s'.jobs[list[i].spec.id] == s.jobs[list[i].spec.id]
  {
    hide Inv, Matches, OnAttemptDone, CanFinish, T.Named, Leads, T.ReapAll, Held;
    T.ReapNone(list, s.disk);
    if messages == [] {
      moves, s' := [], s;
      assert s.queue + [] == s.queue;
      LeadsNowhere(s, list);
      forall k | 0 <= k < |list| && Held(s, list[k], Active) ensures list[k].spec.id in s.jobs {
        HeldIsThere(s, list[k], Active);
      }
    } else {
      var n := |messages| - 1;
      var (i, done) := messages[n];
      var j := list[i];
      assert messages[..n + 1] == messages;
      var first, mid := ReapMoves(s, list, messages[..n]);
      T.LastIsNew(messages, n);
      T.ReapStep(list, s.disk, messages, n);
      var before := T.ReapAll(list, s.disk, messages[..n]);
      HeldIsThere(s, j, Active);
      StillHeld(s, mid, j, Active);
      s' := DoneMove(s, first, mid, before.jobs, j, i, done);
      moves := first + [JobStep(j.spec.id, Done(done))];
      Joined([], [], [], s.queue, before.posts, OnAttemptDone(j, mid.disk, done).0.posts);
      DistinctOf(s, list);
      forall k | 0 <= k < |list| && Held(s, list[k], Active) && !T.Named(messages, k)
        ensures T.ReapAll(list, s.disk, messages).jobs[k] == list[k]
        ensures list[k].spec.id in s'.jobs && s'.jobs[list[k].spec.id] == s.jobs[list[k].spec.id]
      {
        T.NamedSnoc(messages, k);
        assert k != i && list[k].spec.id != j.spec.id;
        HeldIsThere(s, list[k], Active);
      }
    }
  }

  lemma LeadsNowhere(s: Sys, list: seq<Job>)
    requires Inv(s) && Matches(s, list)
    ensures Leads(s, [], s, list)
  {
  }

  lemma StillHeld(s: Sys, mid: Sys, j: Job, place: Place)
    requires Held(s, j, place) && j.spec.id in mid.jobs && mid.jobs[j.spec.id] == s.jobs[j.spec.id]
    ensures Held(mid, j, place)
  {
  }

  lemma HeldIsThere(s: Sys, j: Job, place: Place)
    requires Held(s, j, place)
    ensures j.spec.id in s.jobs
  {
  }

  lemma DistinctOf(s: Sys, list: seq<Job>)
    requires Matches(s, list)
    ensures T.DistinctIds(list)
  {
  }

  lemma DoneMove(s: Sys, moves: seq<Move>, mid: Sys, list: seq<Job>, j: Job, i: nat, done: DoneAnswers)
      returns (s': Sys)
    requires i < |list| && list[i] == j && j.attached && mid.pc == Running
    requires Held(mid, j, Active) && CanFinish(mid.jobs[j.spec.id].live, done)
    requires Leads(s, moves, mid, list)
    ensures Leads(s, moves + [JobStep(j.spec.id, Done(done))], s', list[i := OnAttemptDone(j, mid.disk, done).0.job])
    ensures Beside(mid, s') && s'.queue == mid.queue + OnAttemptDone(j, mid.disk, done).0.posts
    ensures s'.disk == OnAttemptDone(j, mid.disk, done).1
    ensures forall k :: k in mid.jobs && k != j.spec.id ==> k in s'.jobs && s'.jobs[k] == mid.jobs[k]
  {
    hide Inv, Matches, Step, OnAttemptDone, Posts, After, CanFinish;
    var id, a := j.spec.id, Done(done);
    LeadsMatches(s, moves, mid, list);
    WaitingIsUnfinished(mid, j);
    FoundAt(list, i);
    DoneStep(mid.jobs[id].live, mid.disk, done);
    s' := DoJobStep(mid, id, a);
    OneStep(s, moves, mid, list, id, a, s', Step(mid.jobs[id].live, mid.disk, a).0,
            list[i := OnAttemptDone(j, mid.disk, done).0.job]);
  }

  // ---------------------------------------------------------------- the turn

  /** m_incoming holds each job of the mailbox exactly once. */
  ghost predicate Waits(s: Sys, incoming: seq<Job>, place: Place) {
    && T.DistinctIds(incoming)
    && (forall i :: 0 <= i < |incoming| ==> Held(s, incoming[i], place))
    && (forall id :: id in s.jobs && s.jobs[id].place == place ==> Listed(incoming, id))
  }

  lemma PhaseMove(s: Sys, moves: seq<Move>, mid: Sys, list: seq<Job>) returns (s': Sys)
    requires CanNextPhase(mid) && mid.pc != Running
    requires Leads(s, moves, mid, list)
    ensures Leads(s, moves + [NextPhase], s', list) && s' == mid.(pc := s'.pc)
    ensures s'.pc == match mid.pc case Admitting => Cancelling case Cancelling => Crediting case _ => Running
  {
    hide Inv, Matches, After;
    s' := DoNextPhase(mid);
    LeadsOneMore(s, moves, mid, list, NextPhase, s', list);
  }

  lemma TakeMove(s: Sys, list: seq<Job>, incoming: seq<Job>) returns (s': Sys)
    requires s.pc == Polling && Waits(s, incoming, Mailbox)
    requires Inv(s) && Matches(s, list)
    ensures Leads(s, [TakePending], s', list) && Waits(s', incoming, Taken)
    ensures s' == s.(pc := Admitting, workCancels := s.cancels, workCredits := s.credits, cancels := [], credits := [],
                     jobs := s'.jobs)
  {
    hide Inv, Matches, Listed;
    s' := DoTakePending(s);
    assert After(s, []) == Some(s);
    LeadsOneMore(s, [], s, list, TakePending, s', list);
    assert [] + [TakePending] == [TakePending];
    forall i | 0 <= i < |incoming| ensures Held(s', incoming[i], Taken) {
      assert Held(s, incoming[i], Mailbox);
    }
    NoneTaken(s);
  }

  lemma NoneTaken(s: Sys)
    requires Inv(s) && s.pc == Polling
    ensures forall id :: id in s.jobs ==> s.jobs[id].place != Taken
  {
    hide SliceOk, SliceOf;
  }

  /** Run up to curl_multi_perform: from any state in which the worker polls, moves of the machine lead to a
      state that holds exactly the list, the events and the files the Worker object computes. */
  lemma TurnStartIsMoves(s: Sys, active: seq<Job>, incoming: seq<Job>, now: int, first: seq<BeginAnswers>,
                         again: seq<BeginAnswers>, wires: seq<Answer>, wiresAgain: seq<Answer>)
    returns (moves: seq<Move>, s': Sys)
    requires |first| == |incoming| == |wires| && |again| == |active| + |incoming| == |wiresAgain|
    requires s.pc == Polling && Waits(s, incoming, Mailbox)
    requires Inv(s) && Matches(s, active)
    ensures var r := T.TurnStart(active, incoming, s.disk, s.cancels, s.credits, now, first, again);
            && Leads(s, moves, s', r.jobs) && s'.queue == s.queue + r.posts && s'.disk == r.disk
    ensures s'.pc == Running && s'.main == s.main && s'.batch == s.batch && s'.cancels == [] && s'.credits == []
  {
    hide Inv, Matches, After, T.AdmitAll, T.CancelAll, T.ConsumeAll, T.RetryAll, T.RetriedSoFar, Leads, Waits;
    var s1 := TakeMove(s, active, incoming);
    var m2, s2, list := AdmitPhase(s, [TakePending], s1, active, incoming, first, wires);
    var m3, s3 := CancelPhase(s, m2, s2, list);
    var cancelled := T.CancelAll(list, s.cancels);
    var m4, s4 := CreditPhase(s, m3, s3, cancelled.jobs);
    T.CancelAllKeepsLength(list, s.cancels);
    T.ConsumeAllKeepsLength(cancelled.jobs, s.credits);
    var consumed := T.ConsumeAll(cancelled.jobs, s.credits);
    moves, s' := RetryPhase(s, m4, s4, consumed, now, again, wiresAgain);
    Regroup(s.queue, T.AdmitAll(incoming, s.disk, first).posts, cancelled.posts,
            T.RetryAll(consumed, s4.disk, now, again).posts);
  }

  lemma Regroup(a: seq<Event>, b: seq<Event>, c: seq<Event>, d: seq<Event>)
    ensures a + b + c + d == a + (b + c + d)
  {
  }

  lemma AdmitPhase(s: Sys, before: seq<Move>, mid: Sys, active: seq<Job>, incoming: seq<Job>,
      answers: seq<BeginAnswers>,
                   wires: seq<Answer>) returns (moves: seq<Move>, s': Sys, list: seq<Job>)
    requires |answers| == |incoming| == |wires| && mid.pc == Admitting && Waits(mid, incoming, Taken)
    requires Leads(s, before, mid, active)
    ensures list == active + T.AdmitAll(incoming, mid.disk, answers).jobs && Leads(s, moves, s', list)
    ensures s' == mid.(pc := Cancelling, jobs := s'.jobs, queue := mid.queue
        + T.AdmitAll(incoming, mid.disk, answers).posts,
                       disk := T.AdmitAll(incoming, mid.disk, answers).disk)
  {
    hide Inv, Matches, After, T.AdmitAll, Listed;
    list := active + T.AdmitAll(incoming, mid.disk, answers).jobs;
    LeadsMatches(s, before, mid, active);
    var more, end := AdmitMoves(mid, active, incoming, answers, wires);
    LeadsBoth(s, before, mid, active, more, end, list);
    forall id | id in end.jobs ensures end.jobs[id].place != Taken {
      assert id in mid.jobs;
    }
    s' := PhaseMove(s, before + more, end, list);
    moves := before + more + [NextPhase];
  }

  lemma CancelPhase(s: Sys, before: seq<Move>, mid: Sys, list: seq<Job>) returns (moves: seq<Move>, s': Sys)
    requires mid.pc == Cancelling
    requires Leads(s, before, mid, list)
    ensures Leads(s, moves, s', T.CancelAll(list, mid.workCancels).jobs)
    ensures s' == mid.(pc := Crediting, workCancels := [], jobs := s'.jobs,
                       queue := mid.queue + T.CancelAll(list, mid.workCancels).posts)
  {
    hide Inv, Matches, After, T.CancelAll;
    LeadsMatches(s, before, mid, list);
    var n := |mid.workCancels|;
    assert mid.workCancels[..n] == mid.workCancels && mid.workCancels[n..] == [];
    var more, end := CancelMoves(mid, list, n);
    LeadsBoth(s, before, mid, list, more, end, T.CancelAll(list, mid.workCancels).jobs);
    s' := PhaseMove(s, before + more, end, T.CancelAll(list, mid.workCancels).jobs);
    moves := before + more + [NextPhase];
  }

  lemma CreditPhase(s: Sys, before: seq<Move>, mid: Sys, list: seq<Job>) returns (moves: seq<Move>, s': Sys)
    requires mid.pc == Crediting
    requires Leads(s, before, mid, list)
    ensures Leads(s, moves, s', T.ConsumeAll(list, mid.workCredits))
    ensures s' == mid.(pc := Running, workCredits := [], jobs := s'.jobs)
  {
    hide Inv, Matches, After, T.ConsumeAll;
    LeadsMatches(s, before, mid, list);
    var n := |mid.workCredits|;
    assert mid.workCredits[..n] == mid.workCredits && mid.workCredits[n..] == [];
    var more, end := CreditMoves(mid, list, n);
    LeadsBoth(s, before, mid, list, more, end, T.ConsumeAll(list, mid.workCredits));
    s' := PhaseMove(s, before + more, end, T.ConsumeAll(list, mid.workCredits));
    moves := before + more + [NextPhase];
  }

  lemma RetryPhase(s: Sys, before: seq<Move>, mid: Sys, list: seq<Job>, now: int, answers: seq<BeginAnswers>,
                   wires: seq<Answer>) returns (moves: seq<Move>, s': Sys)
    requires |answers| == |list| == |wires| && mid.pc == Running
    requires Leads(s, before, mid, list)
    ensures Leads(s, moves, s', T.RetryAll(list, mid.disk, now, answers).jobs)
    ensures s' == mid.(jobs := s'.jobs, queue := mid.queue + T.RetryAll(list, mid.disk, now, answers).posts,
                       disk := T.RetryAll(list, mid.disk, now, answers).disk)
  {
    hide Inv, Matches, After, T.RetryAll, T.RetriedSoFar;
    LeadsMatches(s, before, mid, list);
    T.RetryEnds(list, mid.disk, now, answers);
    var more;
    more, s' := RetryMoves(mid, list, now, answers, wires, |list|);
    LeadsBoth(s, before, mid, list, more, s', T.RetryAll(list, mid.disk, now, answers).jobs);
    moves := before + more;
  }

  /** Run after curl_multi_perform: the DONE messages libcurl may send, then RemoveFinished. */
  lemma TurnEndIsMoves(s: Sys, list: seq<Job>, messages: seq<T.DoneMessage>) returns (moves: seq<Move>, s': Sys)
    requires s.pc == Running && T.Deliverable(list, messages)
    requires forall m :: 0 <= m < |messages| ==>
               Held(s, list[messages[m].0], Active)
                   && CanFinish(s.jobs[list[messages[m].0].spec.id].live, messages[m].1)
    requires Inv(s) && Matches(s, list)
    ensures var r := T.ReapAll(list, s.disk, messages);
            && Leads(s, moves, s', T.Kept(r.jobs)) && s'.queue == s.queue + r.posts && s'.disk == r.disk
    ensures s'.pc == Polling && s'.main == s.main && s'.batch == s.batch && s'.cancels == s.cancels
        && s'.credits == s.credits
  {
    hide Inv, Matches, After, T.ReapAll, T.Kept, CanFinish;
    var reaped := T.ReapAll(list, s.disk, messages).jobs;
    var more, end := ReapMoves(s, list, messages);
    s' := DoNextPhase(end);
    LeadsOneMore(s, more, end, reaped, NextPhase, s', T.Kept(reaped));
    moves := more + [NextPhase];
  }
}
