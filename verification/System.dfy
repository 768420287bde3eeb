/** The two threads together: the main thread with its drained batch, the mailbox the worker
    swaps out, the event queue, and the worker's loop over any number of jobs.

    One step is what happens between two lock operations (src/transfer_thread.cpp:45-156,
    src/main_thread_queue.cpp:3-23) or inside one libcurl callback, so the threads interleave
    freely. `taken`, `dispatched`, `creditsSent` and `dropped` record the past of a job:
    the events popped from the batch, those of them that found a record, the bytes credited
    back, and whether its record was dropped. */
module System {
  import opened Events
  import opened JobSpec
  import opened Live
  import opened MainThread

  /** Where a job is: m_incoming, the worker's local list, m_active, or destroyed. */
  datatype Place = Mailbox | Taken | Active | Gone

  datatype Entry = Entry(
    live: Live,
    place: Place,
    taken: seq<Event>,
    dispatched: seq<Event>,
    creditsSent: int,
    dropped: bool)

  /** Where the worker is in one turn of its loop. */
  datatype Pc = Polling | Admitting | Cancelling | Crediting | Running

  type CreditMsg = (int, int)

  datatype Sys = Sys(
    main: Main,
    batch: seq<Event>,
    queue: seq<Event>,
    cancels: seq<int>,
    credits: seq<CreditMsg>,
    pc: Pc,
    workCancels: seq<int>,
    workCredits: seq<CreditMsg>,
    jobs: map<int, Entry>,
    disk: Disk)

  function Start(disk: Disk): Sys {
    Sys(LOADED, [], [], [], [], Polling, [], [], map[], disk)
  }

  datatype Move =
    | Native(action: Action)
    | Send(handle: int, owner: int, maxWrite: nat)
    | CancelRequest(id: int, requester: int)
    | Drop(id: int)
    | Drain
    | StartNext
    | EndCurrent(handled: bool)
    | TakePending
    | JobStep(id: int, step: Label)
    | CancelNext
    | CreditNext
    | NextPhase

  // ---------------------------------------------------------------- main-thread steps

  function DoSend(s: Sys, handle: int, owner: int, maxWrite: nat): Sys {
    var (m, calls) := MainThread.Send(s.main, handle, owner);
    if calls == [] then s
    else s.(main := m, jobs := s.jobs[s.main.nextJobId :=
              Entry(Fresh(s.main.requests[handle].spec.(id := s.main.nextJobId), maxWrite), Mailbox, [], [], 0, false)])
  }

  function DoCancelRequest(s: Sys, id: int, requester: int): Sys {
    if CancelJob(s.main, id, requester) == [] then s else s.(cancels := s.cancels + [id])
  }

  predicate CanDrop(s: Sys, id: int) {
    id in s.main.records && id in s.jobs
  }

  function DoDrop(s: Sys, id: int): Sys
    requires CanDrop(s, id)
  {
    s.(main := DropJob(s.main, id).0, cancels := s.cancels + [id],
       jobs := s.jobs[id := s.jobs[id].(dropped := true)])
  }

  /** OnGameFrame drains only when the previous batch has been handled. */
  predicate CanDrain(s: Sys) {
    s.batch == [] && s.main.phase.Idle?
  }

  function DoDrain(s: Sys): Sys {
    s.(batch := s.queue, queue := [])
  }

  predicate CanStartNext(s: Sys) {
    s.main.phase.Idle? && s.batch != [] && s.batch[0].id in s.jobs
  }

  function DoStartNext(s: Sys): Sys
    requires CanStartNext(s)
  {
    var e := s.batch[0];
    var entry := s.jobs[e.id];
    s.(main := StartEvent(s.main, e), batch := s.batch[1..],
       jobs := s.jobs[e.id := entry.(
         taken := entry.taken + [e],
         dispatched := entry.dispatched + (if e.id in s.main.records then [e] else []))])
  }

  /** Bytes of the Data event whose callback is running: handed out, not yet credited. */
  function InHand(s: Sys, id: int): int {
    if s.main.phase.Dispatching? && s.main.phase.event.id == id then |BodyOf(s.main.phase.event)| else 0
  }

  predicate CanEndCurrent(s: Sys) {
    s.main.phase.Dispatching? ==> s.main.phase.event.id in s.main.records && s.main.phase.event.id in s.jobs
  }

  function DoEndCurrent(s: Sys, handled: bool): Sys
    requires CanEndCurrent(s)
  {
    var (m, calls) := EndEvent(s.main, handled);
    if calls == [] then s.(main := m)
    else if calls[0].ConsumeCall? then
      var id := calls[0].id;
      s.(main := m, credits := s.credits + [(id, calls[0].bytes)],
         jobs := if id in s.jobs then s.jobs[id := s.jobs[id].(creditsSent := s.jobs[id].creditsSent + calls[0].bytes)]
                 else s.jobs)
    else if calls[0].CancelCall? then s.(main := m, cancels := s.cancels + [calls[0].id])
    else s.(main := m)
  }

  // ---------------------------------------------------------------- worker steps

  function Swapped(e: Entry): Entry {
    if e.place == Mailbox then e.(place := Taken) else e
  }

  /** TakePending swaps all three lists under one lock. */
  function DoTakePending(s: Sys): Sys {
    s.(pc := Admitting, workCancels := s.cancels, workCredits := s.credits, cancels := [], credits := [],
       jobs := map id | id in s.jobs :: Swapped(s.jobs[id]))
  }

  /** When the worker or libcurl acts on a job. */
  predicate CanJobStep(s: Sys, id: int, a: Label) {
    && id in s.jobs && Enabled(s.jobs[id].live, a)
    && match a
       case Begin(_, _, _) =>
         || (s.pc == Admitting && s.jobs[id].place == Taken)
         || (s.pc == Running && s.jobs[id].place == Active && s.jobs[id].live.job.waitingForRetry)
       case Done(_) => s.pc == Running && s.jobs[id].place == Active
       case Consumed(_) => s.pc == Crediting && s.jobs[id].place == Active
       case CancelNow => s.pc == Cancelling && s.jobs[id].place == Active
       case _ => s.jobs[id].place == Active
  }

  /** The events a job step posts: what its history gained. */
  function Posts(before: Live, after: Live): seq<Event> {
    if |before.history| <= |after.history| then after.history[|before.history|..] else []
  }

  function DoJobStep(s: Sys, id: int, a: Label): Sys
    requires CanJobStep(s, id, a)
  {
    var (live, disk) := Step(s.jobs[id].live, s.disk, a);
    s.(jobs := s.jobs[id := s.jobs[id].(live := live, place := Active)],
       queue := s.queue + Posts(s.jobs[id].live, live), disk := disk)
  }

  /** FindActive: the worker finds a job by id only while it is active and unfinished. */
  predicate FindActive(s: Sys, id: int) {
    id in s.jobs && s.jobs[id].place == Active && !s.jobs[id].live.job.finished
  }

  predicate CanCancelNext(s: Sys) {
    && s.pc == Cancelling && s.workCancels != []
    && (FindActive(s, s.workCancels[0]) ==> CanJobStep(s, s.workCancels[0], CancelNow))
  }

  function DoCancelNext(s: Sys): Sys
    requires CanCancelNext(s)
  {
    var id := s.workCancels[0];
    (if FindActive(s, id) then DoJobStep(s, id, CancelNow) else s).(workCancels := s.workCancels[1..])
  }

  predicate CanCreditNext(s: Sys) {
    && s.pc == Crediting && s.workCredits != [] && s.workCredits[0].1 >= 0
    && (FindActive(s, s.workCredits[0].0) ==> CanJobStep(s, s.workCredits[0].0, Consumed(s.workCredits[0].1)))
  }

  function DoCreditNext(s: Sys): Sys
    requires CanCreditNext(s)
  {
    var (id, bytes) := s.workCredits[0];
    (if FindActive(s, id) then DoJobStep(s, id, Consumed(bytes)) else s).(workCredits := s.workCredits[1..])
  }

  function Reaped(e: Entry): Entry {
    if e.place == Active && e.live.job.finished then e.(place := Gone) else e
  }

  /** The worker moves on once the work of its phase is done; the last phase ends with RemoveFinished. */
  predicate CanNextPhase(s: Sys) {
    match s.pc
    case Polling => false
    case Admitting => forall id :: id in s.jobs ==> s.jobs[id].place != Taken
    case Cancelling => s.workCancels == []
    case Crediting => s.workCredits == []
    case Running => true
  }

  function DoNextPhase(s: Sys): Sys {
    match s.pc
    case Polling => s
    case Admitting => s.(pc := Cancelling)
    case Cancelling => s.(pc := Crediting)
    case Crediting => s.(pc := Running)
    case Running => s.(pc := Polling, jobs := map id | id in s.jobs :: Reaped(s.jobs[id]))
  }

  // ---------------------------------------------------------------- the step relation

  predicate IsRequestAction(a: Action) {
    a.NewRequestAction? || a.SetCallbackAction? || a.FreeRequestAction?
  }

  predicate Can(s: Sys, a: Move) {
    match a
    case Native(action) => IsRequestAction(action)
    case Send(_, _, _) => true
    case CancelRequest(_, _) => true
    case Drop(id) => CanDrop(s, id)
    case Drain => CanDrain(s)
    case StartNext => CanStartNext(s)
    case EndCurrent(_) => CanEndCurrent(s)
    case TakePending => s.pc == Polling
    case JobStep(id, step) => !step.Consumed? && !step.CancelNow? && CanJobStep(s, id, step)
    case CancelNext => CanCancelNext(s)
    case CreditNext => CanCreditNext(s)
    case NextPhase => CanNextPhase(s)
  }

  function Next(s: Sys, a: Move): Sys
    requires Can(s, a)
  {
    match a
    case Native(action) => s.(main := Act(s.main, action))
    case Send(handle, owner, maxWrite) => DoSend(s, handle, owner, maxWrite)
    case CancelRequest(id, requester) => DoCancelRequest(s, id, requester)
    case Drop(id) => DoDrop(s, id)
    case Drain => DoDrain(s)
    case StartNext => DoStartNext(s)
    case EndCurrent(handled) => DoEndCurrent(s, handled)
    case TakePending => DoTakePending(s)
    case JobStep(id, step) => DoJobStep(s, id, step)
    case CancelNext => DoCancelNext(s)
    case CreditNext => DoCreditNext(s)
    case NextPhase => DoNextPhase(s)
  }

  // ---------------------------------------------------------------- the invariant

  function SumFor(credits: seq<CreditMsg>, id: int): int {
    if credits == [] then 0
    else SumFor(credits[..|credits| - 1], id)
         + (if credits[|credits| - 1].0 == id then credits[|credits| - 1].1 else 0)
  }

  predicate CancelPending(s: Sys, id: int) {
    id in s.cancels || id in s.workCancels
  }

  /** A job's record: gone, serving callbacks, or dropped by the callback that is running. */
  datatype RecordState = Absent | Alive | Doomed

  /** Everything in the system that concerns one job. */
  datatype Slice = Slice(
    entry: Entry,
    batch: seq<Event>,
    queue: seq<Event>,
    credits: int,
    workCredits: int,
    inHand: int,
    record: RecordState,
    cancelPending: bool)

  function SliceOf(s: Sys, id: int): Slice
    requires id in s.jobs
  {
    Slice(s.jobs[id], Of(s.batch, id), Of(s.queue, id), SumFor(s.credits, id), SumFor(s.workCredits, id),
          InHand(s, id),
          if id !in s.main.records then Absent else if s.main.records[id].dropped then Doomed else Alive,
          CancelPending(s, id))
  }

  /** The job itself, and where it is. */
  ghost predicate JobOk(e: Entry, id: int) {
    && LiveInv(e.live) && e.live.job.spec.id == id
    && e.live.job.attempt >= 0
    && (e.place.Mailbox? || e.place.Taken? <==> e.live.job.attempt == 0)
    && (e.place.Gone? ==> e.live.job.finished)
    && (e.live.job.attempt == 0 ==> e.live.history == [])
  }

  /** The channel to the main thread is a FIFO: nothing is lost, doubled or reordered. */
  ghost predicate PipeOk(v: Slice) {
    && v.entry.taken + v.batch + v.queue == v.entry.live.history
    && v.entry.dispatched <= v.entry.taken
  }

  /** Every byte handed to the plugin is in its hands, on its way back, or credited. */
  ghost predicate CreditOk(v: Slice) {
    && v.entry.creditsSent + v.inHand == |DataOf(v.entry.dispatched)|
    && v.inHand >= 0 && v.credits >= 0 && v.workCredits >= 0
    && v.entry.live.credited + v.credits + v.workCredits <= v.entry.creditsSent
    && (!v.entry.live.job.finished ==> v.entry.live.credited + v.credits + v.workCredits == v.entry.creditsSent)
  }

  predicate EndsWithComplete(events: seq<Event>) {
    events != [] && events[|events| - 1].Complete?
  }

  /** While the record serves callbacks everything popped was dispatched; once it is gone, either the
      job was dropped, or all of its events were dispatched. Without a record no job runs on unnoticed. */
  ghost predicate RecordOk(v: Slice) {
    var e := v.entry;
    && (!v.record.Absent? ==> e.dispatched == e.taken && !EndsWithComplete(e.dispatched))
    && (v.record.Doomed? ==> e.dropped) && (v.record.Alive? ==> !e.dropped)
    && (v.record.Absent? && !e.dropped ==> e.dispatched == e.live.history && e.live.job.finished)
    && (v.record.Absent? || e.dropped ==> e.live.job.finished || v.cancelPending)
  }

  ghost predicate SliceOk(v: Slice, id: int) {
    JobOk(v.entry, id) && PipeOk(v) && CreditOk(v) && RecordOk(v)
  }

  /** Ids on every list are ids of submitted jobs, and the worker's lists fit its phase. */
  ghost predicate ListsOk(s: Sys) {
    && Tidy(s.main)
    && (s.main.phase.Dispatching? && s.main.phase.event.Data? ==> s.main.phase.event.body != "")
    && (forall id :: id in s.main.records ==> id in s.jobs)
    && (forall id :: id in s.jobs ==> id < s.main.nextJobId)
    && (forall i :: 0 <= i < |s.batch| ==> s.batch[i].id in s.jobs)
    && (forall i :: 0 <= i < |s.queue| ==> s.queue[i].id in s.jobs)
    && (forall i :: 0 <= i < |s.cancels| ==> s.cancels[i] in s.jobs)
    && (forall i :: 0 <= i < |s.workCancels| ==>
          s.workCancels[i] in s.jobs && s.jobs[s.workCancels[i]].place != Mailbox)
    && (forall i :: 0 <= i < |s.credits| ==> s.credits[i].0 in s.jobs && s.credits[i].1 > 0)
    && (forall i :: 0 <= i < |s.workCredits| ==> s.workCredits[i].0 in s.jobs && s.workCredits[i].1 > 0)
    && (s.pc != Admitting ==> forall id :: id in s.jobs ==> s.jobs[id].place != Taken)
    && (s.pc.Polling? || s.pc.Crediting? || s.pc.Running? ==> s.workCancels == [])
    && (s.pc.Polling? || s.pc.Running? ==> s.workCredits == [])
    && (s.pc.Polling? ==> forall id :: id in s.jobs && s.jobs[id].place == Active ==> !s.jobs[id].live.job.finished)
  }

  ghost predicate Inv(s: Sys) {
    ListsOk(s) && forall id :: id in s.jobs ==> SliceOk(SliceOf(s, id), id)
  }

  lemma StartHolds(disk: Disk)
    ensures Inv(Start(disk))
  {
  }

  // ---------------------------------------------------------------- sums of credit

  lemma {:induction false} SumConcat(a: seq<CreditMsg>, b: seq<CreditMsg>, id: int)
    ensures SumFor(a + b, id) == SumFor(a, id) + SumFor(b, id)
  {
    if b == [] {
      assert a + b == a;
    } else {
      SumConcat(a, b[..|b| - 1], id);
      assert (a + b)[..|a + b| - 1] == a + b[..|b| - 1];
    }
  }

  lemma {:induction false} SumOfNonNegative(a: seq<CreditMsg>, id: int)
    requires forall i :: 0 <= i < |a| ==> a[i].1 >= 0
    ensures SumFor(a, id) >= 0
  {
    if a != [] {
      SumOfNonNegative(a[..|a| - 1], id);
    }
  }

  lemma SumOfOne(c: CreditMsg, id: int)
    ensures SumFor([c], id) == if c.0 == id then c.1 else 0
  {
    assert [c][..0] == [];
  }

  lemma SumHead(a: seq<CreditMsg>, id: int)
    requires a != []
    ensures SumFor(a, id) == (if a[0].0 == id then a[0].1 else 0) + SumFor(a[1..], id)
  {
    assert a == [a[0]] + a[1..];
    SumConcat([a[0]], a[1..], id);
    SumOfOne(a[0], id);
  }

  // ---------------------------------------------------------------- job steps

  /** A job step appends to the history, and what it appends carries the job's id. */
  lemma StepGrowsHistory(l: Live, disk: Disk, a: Label)
    requires LiveInv(l) && Enabled(l, a)
    ensures l.history <= Step(l, disk, a).0.history
    ensures Step(l, disk, a).0.history == l.history + Posts(l, Step(l, disk, a).0)
    ensures Step(l, disk, a).0.job.spec == l.job.spec && Step(l, disk, a).0.job.attempt >= l.job.attempt
    ensures !a.Begin? ==> Step(l, disk, a).0.job.attempt == l.job.attempt
    ensures a.Begin? ==> Step(l, disk, a).0.job.attempt > 0
    ensures Step(l, disk, a).0.credited == l.credited + (if a.Consumed? then a.bytes else 0)
    ensures !l.job.finished && (a.CancelNow? ==> Step(l, disk, a).0.job.finished)
    ensures Step(l, disk, a).0.job.finished ==> a.Begin? || a.Done? || a.CancelNow?
    ensures forall i :: 0 <= i < |Posts(l, Step(l, disk, a).0)| ==> Posts(l, Step(l, disk, a).0)[i].id == l.job.spec.id
    ensures LiveInv(Step(l, disk, a).0)
  {
    hide Step, Enabled, LiveInv;
    StepKeeps(l, disk, a);
    StepShape(l, disk, a);
    var l' := Step(l, disk, a).0;
    OwnIds(l');
    forall i | 0 <= i < |Posts(l, l')| ensures Posts(l, l')[i].id == l.job.spec.id {
      assert l'.history[|l.history| + i] == Posts(l, l')[i];
    }
  }

  lemma OwnIds(l: Live)
    requires LiveInv(l)
    ensures forall i :: 0 <= i < |l.history| ==> l.history[i].id == l.job.spec.id
  {
  }

  lemma StepShape(l: Live, disk: Disk, a: Label)
    requires LiveInv(l) && Enabled(l, a)
    ensures l.history <= Step(l, disk, a).0.history
    ensures Step(l, disk, a).0.job.spec == l.job.spec && Step(l, disk, a).0.job.attempt >= l.job.attempt
    ensures !a.Begin? ==> Step(l, disk, a).0.job.attempt == l.job.attempt
    ensures a.Begin? ==> Step(l, disk, a).0.job.attempt > 0
    ensures Step(l, disk, a).0.credited == l.credited + (if a.Consumed? then a.bytes else 0)
    ensures !l.job.finished && (a.CancelNow? ==> Step(l, disk, a).0.job.finished)
    ensures Step(l, disk, a).0.job.finished ==> a.Begin? || a.Done? || a.CancelNow?
  {
    hide BeginAttempt, OnHeaderLine, OnWrite, PostProgress, OnStreamConsumed, OnAttemptDone, JobSpec.Cancel;
    match a
    case Begin(begin, _, _) => BeginShape(l.job, disk, begin);
    case HeaderLine(line, status) => HeaderLineShape(l.job, line, status);
    case Write(n, io) => WriteShape(l.job, disk, l.wire.remaining[..n], l.wire.status, io);
    case Tick(now, dltotal, dlnow, ultotal, ulnow) => TickShape(l.job, now, dltotal, dlnow, ultotal, ulnow);
    case Consumed(bytes) => ConsumedShape(l.job, bytes);
    case Done(d) => DoneShape(l.job, disk, d);
    case CancelNow => CancelShape(l.job);
  }

  lemma QueueGrows(queue: seq<Event>, posts: seq<Event>, id: int, k: int)
    requires forall i :: 0 <= i < |posts| ==> posts[i].id == id
    ensures Of(queue + posts, k) == Of(queue, k) + (if k == id then posts else [])
  {
    OfConcat(queue, posts, k);
    OfOwn(posts, id);
  }

  lemma JobStepSlice(s: Sys, id: int, a: Label, k: int)
    requires Inv(s) && CanJobStep(s, id, a) && k in s.jobs
    ensures var live := Step(s.jobs[id].live, s.disk, a).0;
            k in DoJobStep(s, id, a).jobs
            && SliceOf(DoJobStep(s, id, a), k)
            == if k == id then SliceOf(s, k).(entry := s.jobs[id].(live := live, place := Active),
                                              queue := Of(s.queue, k) + Posts(s.jobs[id].live, live))
               else SliceOf(s, k)
  {
    hide LiveInv, Step, Enabled, Of, SumFor;
    assert SliceOk(SliceOf(s, id), id);
    StepGrowsHistory(s.jobs[id].live, s.disk, a);
    QueueGrows(s.queue, Posts(s.jobs[id].live, Step(s.jobs[id].live, s.disk, a).0), id, k);
  }

  lemma SliceAfterStep(v: Slice, id: int, disk: Disk, a: Label)
    requires SliceOk(v, id) && Enabled(v.entry.live, a) && (a.Begin? || v.entry.place == Active)
    ensures var live := Step(v.entry.live, disk, a).0;
            var bytes := if a.Consumed? then a.bytes else 0;
            ((a.Consumed? ==> bytes <= v.workCredits) ==>
               SliceOk(v.(entry := v.entry.(live := live, place := Active), queue := v.queue
                   + Posts(v.entry.live, live),
                          workCredits := v.workCredits - bytes), id))
  {
    hide LiveInv, Step, Enabled, DataOf;
    StepGrowsHistory(v.entry.live, disk, a);
  }

  lemma JobStepLists(s: Sys, id: int, a: Label)
    requires Inv(s) && CanJobStep(s, id, a)
    ensures ListsOk(DoJobStep(s, id, a))
  {
    hide LiveInv, Step, Enabled, Tidy, Of, SumFor, DataOf;
    assert SliceOk(SliceOf(s, id), id);
    StepGrowsHistory(s.jobs[id].live, s.disk, a);
  }

  lemma JobStepKeeps(s: Sys, id: int, a: Label)
    requires Inv(s) && CanJobStep(s, id, a) && !a.Consumed?
    ensures Inv(DoJobStep(s, id, a))
  {
    hide SliceOk, ListsOk, SliceOf, DoJobStep, Step, Enabled;
    JobStepLists(s, id, a);
    JobStepFrame(s, id, a);
    forall k | k in DoJobStep(s, id, a).jobs ensures SliceOk(SliceOf(DoJobStep(s, id, a), k), k) {
      JobStepSlice(s, id, a, k);
      SliceFields(s, k);
      if k == id {
        SliceAfterStep(SliceOf(s, id), id, s.disk, a);
      }
    }
  }

  lemma SliceFields(s: Sys, k: int)
    requires k in s.jobs
    ensures SliceOf(s, k).entry == s.jobs[k] && SliceOf(s, k).queue == Of(s.queue, k)
    ensures SliceOf(s, k).workCredits == SumFor(s.workCredits, k)
  {
  }

  lemma JobStepFrame(s: Sys, id: int, a: Label)
    requires CanJobStep(s, id, a)
    ensures var s' := DoJobStep(s, id, a);
            && s'.main == s.main && s'.batch == s.batch && s'.cancels == s.cancels && s'.credits == s.credits
            && s'.pc == s.pc && s'.workCancels == s.workCancels && s'.workCredits == s.workCredits
            && s'.jobs.Keys == s.jobs.Keys
  {
    hide Step, Enabled;
  }

  // ---------------------------------------------------------------- cancellations

  /** Taking one cancel off the worker's list leaves its job finished. */
  lemma CancelNextFinishes(s: Sys)
    requires Inv(s) && CanCancelNext(s)
    ensures s.workCancels[0] in DoCancelNext(s).jobs && DoCancelNext(s).jobs[s.workCancels[0]].live.job.finished
  {
    hide LiveInv, Step, Enabled, Tidy, Of, SumFor, DataOf;
    var id := s.workCancels[0];
    assert SliceOk(SliceOf(s, id), id);
    if FindActive(s, id) {
      StepGrowsHistory(s.jobs[id].live, s.disk, CancelNow);
    }
  }

  /** A cancel may leave the list once its job is finished. */
  lemma HeadCancelRemoved(s: Sys, k: int)
    requires s.workCancels != [] && s.workCancels[0] in s.jobs && s.jobs[s.workCancels[0]].live.job.finished
    requires k in s.jobs && SliceOk(SliceOf(s, k), k)
    ensures SliceOk(SliceOf(s.(workCancels := s.workCancels[1..]), k), k)
  {
    hide LiveInv, Of, SumFor, DataOf;
    assert forall x :: x in s.workCancels ==> x == s.workCancels[0] || x in s.workCancels[1..];
    assert InHand(s.(workCancels := s.workCancels[1..]), k) == InHand(s, k);
    var v := SliceOf(s, k);
    assert SliceOf(s.(workCancels := s.workCancels[1..]), k)
        == v.(cancelPending := CancelPending(s.(workCancels := s.workCancels[1..]), k));
  }

  lemma CancelNextKeeps(s: Sys)
    requires Inv(s) && CanCancelNext(s)
    ensures Inv(DoCancelNext(s))
  {
    hide SliceOk, SliceOf, DoJobStep, Tidy, Step, Enabled;
    var id := s.workCancels[0];
    if FindActive(s, id) {
      JobStepKeeps(s, id, CancelNow);
      JobStepFrame(s, id, CancelNow);
    }
    CancelNextFinishes(s);
    var s1 := if FindActive(s, id) then DoJobStep(s, id, CancelNow) else s;
    assert Inv(s1) && DoCancelNext(s) == s1.(workCancels := s1.workCancels[1..]);
    forall k | k in DoCancelNext(s).jobs ensures SliceOk(SliceOf(DoCancelNext(s), k), k) {
      HeadCancelRemoved(s1, k);
    }
  }

  // ---------------------------------------------------------------- credits

  /** A credit message is never more than what is outstanding, so the clamp at zero never bites;
      and it finds its job active unless the job has finished. */
  lemma CreditIsOutstanding(s: Sys)
    requires Inv(s) && s.pc == Crediting && s.workCredits != []
    ensures var (id, bytes) := s.workCredits[0];
            id in s.jobs && (s.jobs[id].live.job.finished || (FindActive(s, id) && CanConsume(s.jobs[id].live, bytes)))
  {
    hide LiveInv, Tidy, Of, SumFor, DataOf;
    var (id, bytes) := s.workCredits[0];
    var e := s.jobs[id];
    assert SliceOk(SliceOf(s, id), id);
    CreditedNatural(e.live);
    SumHead(s.workCredits, id);
    SumOfNonNegative(s.workCredits[1..], id);
    PrefixData(e.dispatched, e.live.history);
    NoData();
  }

  lemma CreditedNatural(l: Live)
    requires LiveInv(l)
    ensures l.credited >= 0
  {
  }

  lemma NoData()
    ensures DataOf([]) == ""
  {
  }

  lemma PrefixData(a: seq<Event>, b: seq<Event>)
    requires a <= b
    ensures DataOf(a) <= DataOf(b) && |DataOf(a)| <= |DataOf(b)|
  {
    assert b == a + b[|a|..];
    DataOfConcat(a, b[|a|..]);
  }

  /** Dropping the head credit from the list changes only its own job's share. */
  lemma HeadCreditRemoved(s: Sys, k: int)
    requires s.workCredits != [] && k in s.jobs
    ensures SliceOf(s.(workCredits := s.workCredits[1..]), k)
         == SliceOf(s, k).(workCredits := SliceOf(s, k).workCredits
                                          - (if s.workCredits[0].0 == k then s.workCredits[0].1 else 0))
  {
    hide Of, SumFor;
    SumHead(s.workCredits, k);
    assert InHand(s.(workCredits := s.workCredits[1..]), k) == InHand(s, k);
  }

  /** Credit for a finished job has no effect. */
  lemma LateCreditKeeps(v: Slice, id: int, bytes: int)
    requires SliceOk(v, id) && v.entry.live.job.finished && v.workCredits >= bytes >= 0
    ensures SliceOk(v.(workCredits := v.workCredits - bytes), id)
  {
    hide LiveInv, DataOf;
  }

  lemma CreditNextSlice(s: Sys, k: int)
    requires Inv(s) && CanCreditNext(s) && k in s.jobs
    ensures k in DoCreditNext(s).jobs && SliceOk(SliceOf(DoCreditNext(s), k), k)
  {
    hide SliceOk, SliceOf, DoJobStep, Tidy, Step, Enabled, SumFor, Of;
    var (id, bytes) := s.workCredits[0];
    assert SliceOk(SliceOf(s, k), k);
    SliceFields(s, k);
    SumHead(s.workCredits, k);
    SumOfNonNegative(s.workCredits[1..], k);
    if FindActive(s, id) {
      JobStepSlice(s, id, Consumed(bytes), k);
      JobStepFrame(s, id, Consumed(bytes));
      HeadCreditRemoved(DoJobStep(s, id, Consumed(bytes)), k);
      if k == id {
        SliceAfterStep(SliceOf(s, k), k, s.disk, Consumed(bytes));
      }
    } else {
      CreditIsOutstanding(s);
      HeadCreditRemoved(s, k);
      if k == id {
        LateCreditKeeps(SliceOf(s, k), k, bytes);
      }
    }
  }

  lemma CreditNextKeeps(s: Sys)
    requires Inv(s) && CanCreditNext(s)
    ensures Inv(DoCreditNext(s))
  {
    hide SliceOk, SliceOf, DoJobStep, Tidy, Step, Enabled;
    var (id, bytes) := s.workCredits[0];
    if FindActive(s, id) {
      JobStepLists(s, id, Consumed(bytes));
      JobStepFrame(s, id, Consumed(bytes));
    }
    forall k | k in DoCreditNext(s).jobs ensures SliceOk(SliceOf(DoCreditNext(s), k), k) {
      CreditNextSlice(s, k);
    }
  }

  // ---------------------------------------------------------------- the worker's own moves

  lemma SumOfNothing(k: int)
    ensures SumFor([], k) == 0 && Of([], k) == []
  {
  }

  lemma TakePendingSlice(s: Sys, k: int)
    requires ListsOk(s) && s.pc == Polling && k in s.jobs && SliceOk(SliceOf(s, k), k)
    ensures SliceOk(SliceOf(DoTakePending(s), k), k)
  {
    hide LiveInv, Tidy, Of, SumFor, DataOf;
    SumOfNothing(k);
    var v := SliceOf(s, k);
    assert s.workCredits == [] && s.workCancels == [] && v.workCredits == 0;
    assert InHand(DoTakePending(s), k) == InHand(s, k);
    assert SliceOf(DoTakePending(s), k) == v.(entry := Swapped(v.entry), workCredits := v.credits, credits := 0);
  }

  lemma TakePendingKeeps(s: Sys)
    requires Inv(s) && s.pc == Polling
    ensures Inv(DoTakePending(s))
  {
    hide SliceOf, SliceOk, Tidy;
    var s' := DoTakePending(s);
    assert forall id :: id in s.jobs ==> s'.jobs[id] == Swapped(s.jobs[id]) && s'.jobs[id].place != Mailbox;
    forall k | k in s'.jobs ensures SliceOk(SliceOf(s', k), k) {
      TakePendingSlice(s, k);
    }
  }

  lemma NextPhaseSlice(s: Sys, k: int)
    requires k in s.jobs && SliceOk(SliceOf(s, k), k)
    ensures k in DoNextPhase(s).jobs && SliceOk(SliceOf(DoNextPhase(s), k), k)
  {
    hide LiveInv, Of, SumFor, DataOf;
    var v := SliceOf(s, k);
    assert InHand(DoNextPhase(s), k) == InHand(s, k);
    assert SliceOf(DoNextPhase(s), k) == v.(entry := if s.pc == Running then Reaped(v.entry) else v.entry);
  }

  lemma NextPhaseKeeps(s: Sys)
    requires Inv(s) && CanNextPhase(s)
    ensures Inv(DoNextPhase(s))
  {
    hide SliceOf, SliceOk, Tidy;
    var s' := DoNextPhase(s);
    assert s.pc == Running ==> forall id :: id in s.jobs ==> s'.jobs[id] == Reaped(s.jobs[id]);
    forall k | k in s'.jobs ensures SliceOk(SliceOf(s', k), k) {
      NextPhaseSlice(s, k);
    }
  }

  // ---------------------------------------------------------------- the main thread's moves

  lemma NativeKeeps(s: Sys, a: Action)
    requires Inv(s) && IsRequestAction(a)
    ensures Inv(s.(main := Act(s.main, a)))
  {
    hide SliceOk, Of, SumFor;
    var s' := s.(main := Act(s.main, a));
    ActTidy(s.main, a);
    forall k | k in s'.jobs ensures SliceOk(SliceOf(s', k), k) {
      assert SliceOf(s', k) == SliceOf(s, k);
    }
  }

  lemma {:induction false} NoneFor(events: seq<Event>, id: int)
    requires forall i :: 0 <= i < |events| ==> events[i].id != id
    ensures Of(events, id) == []
  {
    if events != [] {
      NoneFor(events[..|events| - 1], id);
    }
  }

  lemma {:induction false} NoCreditFor(credits: seq<CreditMsg>, id: int)
    requires forall i :: 0 <= i < |credits| ==> credits[i].0 != id
    ensures SumFor(credits, id) == 0
  {
    if credits != [] {
      NoCreditFor(credits[..|credits| - 1], id);
    }
  }

  lemma FreshSlice(spec: RequestSpec, maxWrite: nat, pending: bool)
    ensures SliceOk(Slice(Entry(Fresh(spec, maxWrite), Mailbox, [], [], 0, false), [], [], 0, 0, 0, Alive,
        pending), spec.id)
  {
    hide LiveInv;
    FreshJobHolds(spec, maxWrite);
    NoData();
  }

  lemma SendLists(s: Sys, handle: int, owner: int, maxWrite: nat)
    requires ListsOk(s) && handle in s.main.requests
    ensures ListsOk(DoSend(s, handle, owner, maxWrite))
  {
    hide Fresh, Tidy;
    SendTidy(s, handle, owner);
  }

  lemma SendTidy(s: Sys, handle: int, owner: int)
    requires ListsOk(s)
    ensures Tidy(MainThread.Send(s.main, handle, owner).0) && s.main.nextJobId !in s.jobs
  {
    assert Tidy(s.main);
    ActTidy(s.main, SendAction(handle, owner));
  }

  lemma SendSlice(s: Sys, handle: int, owner: int, maxWrite: nat, k: int)
    requires ListsOk(s) && handle in s.main.requests && k in s.jobs
    ensures k in DoSend(s, handle, owner, maxWrite).jobs
        && SliceOf(DoSend(s, handle, owner, maxWrite), k) == SliceOf(s, k)
  {
    hide Fresh, Tidy, Of, SumFor;
    assert k != s.main.nextJobId;
  }

  lemma SendKeeps(s: Sys, handle: int, owner: int, maxWrite: nat)
    requires Inv(s)
    ensures Inv(DoSend(s, handle, owner, maxWrite))
  {
    hide SliceOk, Of, SumFor, Tidy;
    var s' := DoSend(s, handle, owner, maxWrite);
    var id := s.main.nextJobId;
    if handle in s.main.requests {
      SendTidy(s, handle, owner);
      SendLists(s, handle, owner, maxWrite);
      NoneFor(s.batch, id);
      NoneFor(s.queue, id);
      NoCreditFor(s.credits, id);
      NoCreditFor(s.workCredits, id);
      FreshSlice(s.main.requests[handle].spec.(id := id), maxWrite, CancelPending(s, id));
      forall k | k in s'.jobs ensures SliceOk(SliceOf(s', k), k) {
        if k != id {
          SendSlice(s, handle, owner, maxWrite, k);
        }
      }
    }
  }

  /** A further cancel request changes nothing else for any job. */
  lemma MorePending(v: Slice, id: int, pending: bool)
    requires SliceOk(v, id) && (v.cancelPending ==> pending)
    ensures SliceOk(v.(cancelPending := pending), id)
  {
    hide LiveInv, DataOf;
  }

  lemma CancelRequestKeeps(s: Sys, id: int, requester: int)
    requires Inv(s)
    ensures Inv(DoCancelRequest(s, id, requester))
  {
    hide SliceOk, Of, SumFor, Tidy;
    var s' := DoCancelRequest(s, id, requester);
    forall k | k in s'.jobs ensures SliceOk(SliceOf(s', k), k) {
      assert SliceOf(s', k) == SliceOf(s, k).(cancelPending := CancelPending(s', k));
      MorePending(SliceOf(s, k), k, CancelPending(s', k));
    }
  }

  lemma DropOwn(v: Slice, id: int, record: RecordState)
    requires SliceOk(v, id) && record != Alive
    requires !v.record.Absent?
    ensures SliceOk(v.(entry := v.entry.(dropped := true), record := record, cancelPending := true), id)
  {
    hide LiveInv, DataOf;
  }

  lemma DropKeeps(s: Sys, id: int)
    requires Inv(s) && CanDrop(s, id)
    ensures Inv(DoDrop(s, id))
  {
    hide SliceOk, Of, SumFor, OfRecord;
    var s' := DoDrop(s, id);
    ActTidy(s.main, DropAction(id));
    assert s'.cancels[|s.cancels|] == id;
    forall k | k in s'.jobs ensures SliceOk(SliceOf(s', k), k) {
      if k == id {
        var record := if s.main.records[id].dispatching then Doomed else Absent;
        assert SliceOf(s', k) == SliceOf(s, k).(entry := s.jobs[k].(dropped := true), record := record,
            cancelPending := true);
        DropOwn(SliceOf(s, k), k, record);
      } else {
        assert SliceOf(s', k) == SliceOf(s, k).(cancelPending := CancelPending(s', k));
        MorePending(SliceOf(s, k), k, CancelPending(s', k));
      }
    }
  }

  lemma DrainOwn(v: Slice, id: int)
    requires SliceOk(v, id) && v.batch == []
    ensures SliceOk(v.(batch := v.queue, queue := []), id)
  {
    hide LiveInv, DataOf;
    assert v.entry.taken + [] + v.queue == v.entry.taken + v.queue + [];
  }

  lemma DrainKeeps(s: Sys)
    requires Inv(s) && CanDrain(s)
    ensures Inv(DoDrain(s))
  {
    hide SliceOk, Of, SumFor, Tidy;
    var s' := DoDrain(s);
    forall k | k in s'.jobs ensures SliceOk(SliceOf(s', k), k) {
      SumOfNothing(k);
      assert SliceOf(s', k) == SliceOf(s, k).(batch := Of(s.queue, k), queue := []);
      DrainOwn(SliceOf(s, k), k);
    }
  }

  // ---------------------------------------------------------------- one event of the batch

  /** The head of a job's channel is the next event of its history. */
  lemma HeadOfPipe(v: Slice, id: int, e: Event, rest: seq<Event>)
    requires SliceOk(v, id) && v.batch == [e] + rest
    ensures v.entry.taken + [e] + rest + v.queue == v.entry.live.history
    ensures v.entry.taken + [e] <= v.entry.live.history
    ensures e.Data? ==> e.body != ""
    ensures e.Complete? ==> v.entry.live.job.finished && v.entry.taken + [e] == v.entry.live.history
  {
    hide LiveInv, DataOf;
    var h := v.entry.live.history;
    var i := |v.entry.taken|;
    assert h == v.entry.taken + [e] + rest + v.queue;
    assert h[i] == e;
    CompleteIsLast(v.entry.live, i);
  }

  lemma CompleteIsLast(l: Live, i: nat)
    requires LiveInv(l) && i < |l.history|
    ensures l.history[i].Complete? ==> i == |l.history| - 1 && l.job.finished
    ensures l.history[i].Data? ==> l.history[i].body != ""
  {
  }

  /** An event whose job has no record is thrown away. */
  lemma IgnoredEvent(v: Slice, id: int, e: Event, rest: seq<Event>)
    requires SliceOk(v, id) && v.batch == [e] + rest && v.record.Absent?
    ensures SliceOk(v.(entry := v.entry.(taken := v.entry.taken + [e]), batch := rest), id)
  {
    hide LiveInv, DataOf;
    HeadOfPipe(v, id, e, rest);
  }

  /** A callback other than the completion: the record stays, Data bytes are in the plugin's hands. */
  lemma DispatchedEvent(v: Slice, id: int, e: Event, rest: seq<Event>)
    requires SliceOk(v, id) && v.batch == [e] + rest && v.record.Alive? && !e.Complete? && v.inHand == 0
    ensures SliceOk(v.(entry := v.entry.(taken := v.entry.taken + [e], dispatched := v.entry.dispatched + [e]),
                       batch := rest, inHand := |BodyOf(e)|), id)
  {
    hide LiveInv, DataOf;
    HeadOfPipe(v, id, e, rest);
    Snoc(v.entry.dispatched, e);
  }

  /** The completion: the record is gone before the callback runs, and every event was dispatched. */
  lemma CompletedEvent(v: Slice, id: int, e: Event, rest: seq<Event>)
    requires SliceOk(v, id) && v.batch == [e] + rest && v.record.Alive? && e.Complete? && v.inHand == 0
    ensures SliceOk(v.(entry := v.entry.(taken := v.entry.taken + [e], dispatched := v.entry.dispatched + [e]),
                       batch := rest, record := Absent), id)
  {
    hide LiveInv, DataOf;
    HeadOfPipe(v, id, e, rest);
    Snoc(v.entry.dispatched, e);
  }

  lemma OfHead(events: seq<Event>, k: int)
    requires events != []
    ensures Of(events, k) == (if events[0].id == k then [events[0]] else []) + Of(events[1..], k)
  {
    assert events == [events[0]] + events[1..];
    OfConcat([events[0]], events[1..], k);
    assert [events[0]][..0] == [];
  }

  lemma StartNextSlice(s: Sys, k: int)
    requires Tidy(s.main) && CanStartNext(s) && k in s.jobs && SliceOk(SliceOf(s, k), k)
    ensures SliceOk(SliceOf(DoStartNext(s), k), k)
  {
    hide SliceOk, Of, SumFor;
    var e := s.batch[0];
    var rest := Of(s.batch[1..], k);
    var v := SliceOf(s, k);
    OfHead(s.batch, k);
    if k != e.id {
      assert SliceOf(DoStartNext(s), k) == v;
    } else if k !in s.main.records {
      assert SliceOf(DoStartNext(s), k) == v.(entry := v.entry.(taken := v.entry.taken + [e]), batch := rest) by {
        assert v.entry.dispatched + [] == v.entry.dispatched;
      }
      IgnoredEvent(v, k, e, rest);
    } else if e.Complete? {
      CompletedEvent(v, k, e, rest);
    } else {
      DispatchedEvent(v, k, e, rest);
    }
  }

  lemma StartNextKeeps(s: Sys)
    requires Inv(s) && CanStartNext(s)
    ensures Inv(DoStartNext(s))
  {
    hide SliceOk, Of, SumFor, BodyOf;
    var s' := DoStartNext(s);
    var e := s.batch[0];
    assert forall i :: 0 <= i < |s'.batch| ==> s'.batch[i] == s.batch[i + 1];
    OfHead(s.batch, e.id);
    HeadOfPipe(SliceOf(s, e.id), e.id, e, Of(s.batch[1..], e.id));
    ActTidy(s.main, StartAction(e));
    forall k | k in s'.jobs ensures SliceOk(SliceOf(s', k), k) {
      StartNextSlice(s, k);
    }
  }

  /** The callback returned: the bytes it held go back as credit; a record dropped meanwhile goes. */
  lemma CallbackReturned(v: Slice, id: int, bytes: nat)
    requires SliceOk(v, id) && !v.record.Absent? && v.inHand == bytes
    ensures SliceOk(v.(entry := v.entry.(creditsSent := v.entry.creditsSent + bytes), credits := v.credits + bytes,
                       inHand := 0, record := if v.record.Doomed? then Absent else Alive), id)
  {
    hide LiveInv, DataOf;
  }

  lemma EndCurrentSlice(s: Sys, handled: bool, k: int)
    requires Tidy(s.main) && CanEndCurrent(s) && k in s.jobs && SliceOk(SliceOf(s, k), k)
    ensures k in DoEndCurrent(s, handled).jobs && SliceOk(SliceOf(DoEndCurrent(s, handled), k), k)
  {
    hide SliceOk, Of, SumFor, OfRecord;
    var s' := DoEndCurrent(s, handled);
    var v := SliceOf(s, k);
    if s.main.phase.Dispatching? {
      var e := s.main.phase.event;
      var bytes := |BodyOf(e)|;
      if e.Data? {
        SumConcat(s.credits, [(e.id, bytes)], k);
        SumOfOne((e.id, bytes), k);
      }
      if k == e.id {
        var returned := v.(entry := v.entry.(creditsSent := v.entry.creditsSent + bytes), credits := v.credits + bytes,
                           inHand := 0, record := if v.record.Doomed? then Absent else Alive);
        CallbackReturned(v, k, bytes);
        assert SliceOf(s', k) == returned.(cancelPending := CancelPending(s', k));
        MorePending(returned, k, CancelPending(s', k));
      } else {
        assert SliceOf(s', k) == v.(cancelPending := CancelPending(s', k));
        MorePending(v, k, CancelPending(s', k));
      }
    } else {
      assert SliceOf(s', k) == v;
    }
  }

  lemma ListsAreTidy(s: Sys)
    requires ListsOk(s)
    ensures Tidy(s.main)
  {
  }

  lemma EndCurrentLists(s: Sys, handled: bool)
    requires ListsOk(s) && CanEndCurrent(s)
    ensures ListsOk(DoEndCurrent(s, handled))
  {
    hide OfRecord, EndEvent, Tidy;
    EndTidy(s.main, handled);
    EndedEvent(s.main, handled);
    var calls := EndEvent(s.main, handled).1;
    var s' := DoEndCurrent(s, handled);
    assert forall id :: id in s.jobs ==> id in s'.jobs && s'.jobs[id].place == s.jobs[id].place;
  }

  lemma EndTidy(m: Main, handled: bool)
    requires Tidy(m) && (m.phase.Dispatching? ==> m.phase.event.id in m.records)
    ensures Tidy(EndEvent(m, handled).0)
  {
    ActTidy(m, EndAction(handled));
  }

  lemma EndCurrentKeys(s: Sys, handled: bool)
    requires CanEndCurrent(s)
    ensures DoEndCurrent(s, handled).jobs.Keys == s.jobs.Keys
  {
    hide EndEvent;
  }

  /** What ending an event does to the tables, and the one call it can make. */
  lemma EndedEvent(m: Main, handled: bool)
    requires m.phase.Dispatching? ==> m.phase.event.id in m.records
    ensures var (m', calls) := EndEvent(m, handled);
            && m'.phase.Idle? && m'.nextJobId == m.nextJobId && m'.requests == m.requests
            && (forall id :: id in m'.records ==> id in m.records)
            && (calls == [] || (m.phase.Dispatching? && |calls| == 1
                 && (calls[0] == CancelCall(m.phase.event.id)
                     || (m.phase.event.Data? && calls[0] == ConsumeCall(m.phase.event.id, |m.phase.event.body|)))))
  {
  }

  lemma EndCurrentKeeps(s: Sys, handled: bool)
    requires Inv(s) && CanEndCurrent(s)
    ensures Inv(DoEndCurrent(s, handled))
  {
    hide SliceOk, SliceOf, ListsOk, OfRecord, DoEndCurrent, CanEndCurrent;
    EndCurrentLists(s, handled);
    EndCurrentKeys(s, handled);
    assert Tidy(s.main) by { ListsAreTidy(s); }
    forall k | k in DoEndCurrent(s, handled).jobs ensures SliceOk(SliceOf(DoEndCurrent(s, handled), k), k) {
      EndCurrentSlice(s, handled, k);
    }
  }

  // ---------------------------------------------------------------- every step, every run

  lemma NextKeeps(s: Sys, a: Move)
    requires Inv(s) && Can(s, a)
    ensures Inv(Next(s, a))
  {
    hide Inv, DoSend, DoCancelRequest, DoDrop, DoDrain, DoStartNext, DoEndCurrent, DoTakePending, DoJobStep,
         DoCancelNext, DoCreditNext, DoNextPhase;
    match a
    case Native(action) => NativeKeeps(s, action);
    case Send(handle, owner, maxWrite) => SendKeeps(s, handle, owner, maxWrite);
    case CancelRequest(id, requester) => CancelRequestKeeps(s, id, requester);
    case Drop(id) => DropKeeps(s, id);
    case Drain => DrainKeeps(s);
    case StartNext => StartNextKeeps(s);
    case EndCurrent(handled) => EndCurrentKeeps(s, handled);
    case TakePending => TakePendingKeeps(s);
    case JobStep(id, step) => JobStepKeeps(s, id, step);
    case CancelNext => CancelNextKeeps(s);
    case CreditNext => CreditNextKeeps(s);
    case NextPhase => NextPhaseKeeps(s);
  }

  /** A run of the whole system: its moves and the states between them. */
  ghost predicate SystemRun(states: seq<Sys>, moves: seq<Move>) {
    && |states| == |moves| + 1
    && states[0] == Start(states[0].disk)
    && forall i :: 0 <= i < |moves| ==> Can(states[i], moves[i]) && states[i + 1] == Next(states[i], moves[i])
  }

  /** The invariant holds in every state of every run, however the threads interleave. */
  lemma {:induction false} RunKeeps(states: seq<Sys>, moves: seq<Move>, i: nat)
    requires SystemRun(states, moves) && i <= |moves|
    ensures Inv(states[i])
  {
    hide Inv, Can, Next;
    if i == 0 {
      StartHolds(states[0].disk);
    } else {
      RunKeeps(states, moves, i - 1);
      NextKeeps(states[i - 1], moves[i - 1]);
    }
  }
}
