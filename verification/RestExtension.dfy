/** The extension object: its tables and forwards, changed in place by the natives and by event
    dispatch (src/extension.cpp, src/natives.cpp), each method proved to do what MainThread and
    Callbacks say and to put exactly those requests in the worker's mailbox. */
module RestExtension {
  import opened Maybe
  import opened Events
  import opened MainThreadQueue
  import opened RestJob
  import opened TransferThread
  import opened Callbacks
  import M = MainThread
  import S = JobSpec

  /** The worker's mailbox: the specs of the jobs handed over, the cancel and the consume requests. */
  datatype Mail = Mail(specs: seq<RequestSpec>, cancels: seq<int>, consumes: seq<ConsumeRequest>)

  function Delivered(mail: Mail, call: M.Call): Mail {
    match call
    case Enqueue(spec) => mail.(specs := mail.specs + [spec])
    case CancelCall(id) => mail.(cancels := mail.cancels + [id])
    case ConsumeCall(id, bytes) => mail.(consumes := mail.consumes + [(id, bytes)])
  }

  function DeliveredAll(mail: Mail, calls: seq<M.Call>): Mail {
    if calls == [] then mail
    else Delivered(DeliveredAll(mail, calls[..|calls| - 1]), calls[|calls| - 1])
  }

  lemma {:induction false} DeliveredConcat(mail: Mail, a: seq<M.Call>, b: seq<M.Call>)
    ensures DeliveredAll(mail, a + b) == DeliveredAll(DeliveredAll(mail, a), b)
  {
    if b == [] {
      assert a + b == a;
    } else {
      DeliveredConcat(mail, a, b[..|b| - 1]);
      assert (a + b)[..|a + b| - 1] == a + b[..|b| - 1];
    }
  }

  lemma DeliveredNone(mail: Mail)
    ensures DeliveredAll(mail, []) == mail
  {
  }

  lemma DeliveredOne(mail: Mail, call: M.Call)
    ensures DeliveredAll(mail, [call]) == Delivered(mail, call)
  {
    assert [call][..0] == [];
    assert DeliveredAll(mail, []) == mail;
  }

  ghost function Specs(jobs: seq<Job>): seq<RequestSpec> {
    seq(|jobs|, i requires 0 <= i < |jobs| => jobs[i].spec)
  }

  lemma SameForwards(r: M.Record)
    ensures M.OfRecord(r.(dispatching := false)) == M.OfRecord(r)
  {
  }

  class Extension {
    const queue: Queue
    const store: FileStore
    const worker: Worker
    var nextJobId: int
    var nextForward: nat
    var nextHandle: int
    var requests: map<int, M.Request>
    var records: map<int, M.Record>
    var released: multiset<M.Forward>
    ghost var phase: M.Phase

    ghost function View(): M.Main
      reads this
    {
      M.Main(nextJobId, nextForward, nextHandle, requests, records, phase, released)
    }

    ghost function Mailbox(): Mail
      reads worker
    {
      Mail(Specs(worker.incoming), worker.cancelRequests, worker.consumeRequests)
    }

    /** The worker's lists are as each half of its turn needs them, and no id on them is still to be handed out. */
    ghost predicate Valid()
      reads `nextJobId, worker`incoming, worker`active, worker.incoming, worker.active
    {
      worker.queue == queue && worker.store == store && worker.Ready(nextJobId)
    }

    constructor (queue: Queue, store: FileStore, worker: Worker)
      requires worker.queue == queue && worker.store == store && worker.Ready(1)
      ensures Valid() && View() == M.LOADED
      ensures this.queue == queue && this.worker == worker
    {
      this.queue, this.store, this.worker := queue, store, worker;
      nextJobId, nextForward, nextHandle := 1, 0, 1;
      requests, records, released, phase := map[], map[], multiset{}, M.Idle;
    }

    // ---------------------------------------------------------------- forwards

    method ReleaseForward(slot: Option<M.Forward>)
      modifies `released
      ensures released == old(released) + M.OfSlot(slot)
    {
      if slot.Some? {
        released := released + multiset{slot.value};
      }
    }

    method ReleaseRecord(record: M.Record)
      modifies `released
      ensures released == old(released) + M.OfRecord(record)
    {
      ReleaseForward(record.completed);
      ReleaseForward(record.headers);
      ReleaseForward(record.data);
      ReleaseForward(record.progress);
    }

    method CreateForward() returns (fwd: Option<M.Forward>)
      modifies `nextForward
      ensures fwd == Some(old(nextForward)) && nextForward == old(nextForward) + 1
    {
      fwd := Some(nextForward);
      nextForward := nextForward + 1;
    }

    // ---------------------------------------------------------------- request objects

    method NewRequest(client: int, spec: RequestSpec)
      modifies `requests, `nextHandle
      ensures View() == M.NewRequest(old(View()), client, spec)
    {
      requests := requests[nextHandle := M.Request(spec, client, None, None, None)];
      nextHandle := nextHandle + 1;
    }

    method SetCallback(handle: int, which: M.Which)
      modifies `requests, `nextForward, `released
      ensures View() == M.SetCallback(old(View()), handle, which)
    {
      if handle !in requests {
        return;
      }
      var fwd := CreateForward();
      var request := requests[handle];
      match which {
        case HeadersSlot =>
          ReleaseForward(request.headers);
          request := request.(headers := fwd, spec := request.spec.(wantHeaders := true));
        case DataSlot =>
          ReleaseForward(request.data);
          request := request.(data := fwd, spec := request.spec.(streamData := true));
        case ProgressSlot =>
          ReleaseForward(request.progress);
          request := request.(progress := fwd);
      }
      requests := requests[handle := request];
    }

    /** OnHandleDestroy for a request handle. */
    method FreeRequest(handle: int)
      modifies `requests, `released
      ensures View() == M.FreeRequest(old(View()), handle)
    {
      if handle !in requests {
        return;
      }
      var request := requests[handle];
      ReleaseForward(request.headers);
      ReleaseForward(request.data);
      ReleaseForward(request.progress);
      requests := requests - {handle};
      assert released == old(released) + M.OfRequest(request);
    }

    // ---------------------------------------------------------------- jobs

    method SubmitJob(spec: RequestSpec, record: M.Record) returns (id: int)
      requires Valid()
      modifies `nextJobId, `records, worker`incoming
      ensures Valid() && id == old(nextJobId) && nextJobId == id + 1
      ensures records == old(records)[id := record.(id := id)]
      ensures Mailbox() == Delivered(old(Mailbox()), M.Enqueue(spec.(id := id)))
    {
      id := nextJobId;
      nextJobId := nextJobId + 1;
      records := records[id := record.(id := id)];
      var job := new Job(spec.(id := id), queue, store);
      worker.Enqueue(job);
      assert Specs(worker.incoming) == Specs(old(worker.incoming)) + [spec.(id := id)];
    }

    /** RESTRequest.Send: the record takes the request's forwards, and the request handle is freed. An
        invalid handle, URL or callback is an error: nothing changes and zero comes back. */
    method Send(handle: int, owner: int, accepted: bool) returns (id: int)
      requires Valid()
      modifies this, worker`incoming
      ensures Valid() && View() == Callbacks.Perform(old(View()), CallSend(handle, owner, accepted)).0
      ensures Mailbox() == DeliveredAll(old(Mailbox()), Callbacks.Perform(old(View()), CallSend(handle, owner,
          accepted)).1)
      ensures id == if handle in old(requests) && accepted then old(nextJobId) else 0
      ensures handle in old(requests) && accepted ==>
                && id in records && records[id].client == old(requests)[handle].client && records[id].owner == owner
    {
      if handle !in requests || !accepted {
        return 0;
      }
      var request := requests[handle];
      var completed := CreateForward();
      var record := M.Record(0, request.client, owner, completed, request.headers, request.data, request.progress,
          false, false);
      requests := requests[handle := request.(headers := None, data := None, progress := None)];
      DeliveredOne(Mailbox(), M.Enqueue(request.spec.(id := nextJobId)));
      id := SubmitJob(request.spec, record);
      FreeRequest(handle);
      assert requests == old(requests) - {handle};
      assert released == old(released);
    }

    method PostCancel(id: int)
      modifies worker`cancelRequests
      ensures Mailbox() == DeliveredAll(old(Mailbox()), [M.CancelCall(id)])
    {
      DeliveredOne(Mailbox(), M.CancelCall(id));
      worker.Cancel(id);
    }

    method PostConsume(id: int, bytes: int)
      modifies worker`consumeRequests
      ensures Mailbox() == DeliveredAll(old(Mailbox()), [M.ConsumeCall(id, bytes)])
    {
      DeliveredOne(Mailbox(), M.ConsumeCall(id, bytes));
      worker.Consume(id, bytes);
    }

    method CancelJob(id: int, requester: int) returns (found: bool)
      modifies worker`cancelRequests
      ensures Mailbox() == DeliveredAll(old(Mailbox()), M.CancelJob(View(), id, requester))
      ensures found <==> id in records && records[id].owner == requester
    {
      if id !in records {
        return false;
      }
      if records[id].owner != requester {
        return false;
      }
      PostCancel(id);
      return true;
    }

    /** CancelJobsForClient, the table walked in `order`. */
    method CancelJobsForClient(client: int, requester: int, order: seq<int>) returns (cancelled: nat)
      modifies worker`cancelRequests
      ensures Mailbox() == DeliveredAll(old(Mailbox()), CancelEach(View(), client, requester, order))
      ensures cancelled == |CancelEach(View(), client, requester, order)|
      ensures Walks(order, records) ==> cancelled == |Own(records, client, requester)|
    {
      hide Mailbox, DeliveredAll;
      cancelled := 0;
      ghost var was := Mailbox();
      assert DeliveredAll(was, []) == was by { DeliveredNone(was); }
      var n := 0;
      while n < |order|
        invariant n <= |order| && cancelled == |CancelEach(View(), client, requester, order[..n])|
        invariant Mailbox() == DeliveredAll(was, CancelEach(View(), client, requester, order[..n]))
      {
        assert order[..n + 1][..n] == order[..n];
        var id := order[n];
        if id in records && records[id].client == client && records[id].owner == requester {
          DeliveredConcat(was, CancelEach(View(), client, requester, order[..n]), [M.CancelCall(id)]);
          PostCancel(id);
          cancelled := cancelled + 1;
        } else {
          assert CancelEach(View(), client, requester, order[..n]) + []
              == CancelEach(View(), client, requester, order[..n]);
        }
        n := n + 1;
      }
      assert order[..n] == order;
      if Walks(order, records) {
        CancelAllReaches(View(), client, requester, order);
      }
    }

    method DropJob(id: int)
      requires id in records
      modifies `records, `released, worker`cancelRequests
      ensures View() == M.DropJob(old(View()), id).0
      ensures Mailbox() == DeliveredAll(old(Mailbox()), M.DropJob(old(View()), id).1)
    {
      PostCancel(id);
      if records[id].dispatching {
        records := records[id := records[id].(dropped := true)];
        return;
      }
      ReleaseRecord(records[id]);
      records := records - {id};
    }

    /** DropJobsForClient and OnPluginUnloaded, the table walked in `order`. */
    method DropJobs(who: Who, order: seq<int>)
      modifies `records, `released, worker`cancelRequests
      ensures View() == DropEach(old(View()), who, order).0
      ensures Mailbox() == DeliveredAll(old(Mailbox()), DropEach(old(View()), who, order).1)
      ensures M.Tidy(old(View())) && Walks(order, old(records)) ==>
                forall id :: id in records && Hit(records[id], who) ==> records[id].dispatching && records[id].dropped
    {
      ghost var before, mail := View(), Mailbox();
      var n := 0;
      while n < |order|
        invariant n <= |order|
        invariant View() == DropEach(before, who, order[..n]).0
        invariant Mailbox() == DeliveredAll(mail, DropEach(before, who, order[..n]).1)
      {
        hide M.DropJob, Mailbox;
        assert order[..n + 1][..n] == order[..n];
        var id := order[n];
        DeliveredConcat(mail, DropEach(before, who, order[..n]).1, DropOne(View(), who, id).1);
        if id in records && Hit(records[id], who) {
          DropJob(id);
        } else {
          assert DeliveredAll(Mailbox(), []) == Mailbox();
        }
        n := n + 1;
      }
      assert order[..n] == order;
      if M.Tidy(before) && Walks(order, before.records) {
        DropAllReaches(before, who, order);
      }
    }

    // ---------------------------------------------------------------- plugin code

    method Perform(c: ApiCall)
      requires Valid()
      modifies this, worker`incoming, worker`cancelRequests
      ensures Valid() && View() == Callbacks.Perform(old(View()), c).0
      ensures Mailbox() == DeliveredAll(old(Mailbox()), Callbacks.Perform(old(View()), c).1)
    {
      hide M.NewRequest, M.SetCallback, M.FreeRequest, M.Send, M.CancelJob, CancelEach, DropEach, Valid, Mailbox,
          DeliveredAll;
      DeliveredNone(Mailbox());
      match c {
        case CallNewRequest(client, spec) => NewRequest(client, spec);
        case CallSetCallback(handle, which) => SetCallback(handle, which);
        case CallFree(handle) => FreeRequest(handle);
        case CallSend(handle, owner, accepted) => var id := Send(handle, owner, accepted);
        case CallCancel(id, requester) => var found := CancelJob(id, requester);
        case CallCancelAll(client, requester, order) => var cancelled := CancelJobsForClient(client, requester, order);
        case CallDrop(who, order) => DropJobs(who, order);
      }
    }

    /** The plugin function a forward calls: an arbitrary finite sequence of API calls. */
    method Execute(script: seq<ApiCall>)
      requires Valid()
      modifies this, worker`incoming, worker`cancelRequests
      ensures Valid() && View() == RunScript(old(View()), script).0
      ensures Mailbox() == DeliveredAll(old(Mailbox()), RunScript(old(View()), script).1)
    {
      hide Callbacks.Perform, Mailbox, Valid;
      ghost var before, mail := View(), Mailbox();
      var n := 0;
      while n < |script|
        invariant n <= |script| && Valid()
        invariant View() == RunScript(before, script[..n]).0
        invariant Mailbox() == DeliveredAll(mail, RunScript(before, script[..n]).1)
      {
        assert script[..n + 1][..n] == script[..n];
        DeliveredConcat(mail, RunScript(before, script[..n]).1, Callbacks.Perform(View(), script[n]).1);
        Perform(script[n]);
        n := n + 1;
      }
      assert script[..n] == script;
    }

    // ---------------------------------------------------------------- events

    method Dispatch(e: Event, reply: Reply)
      requires Valid() && M.Tidy(View()) && phase == M.Dispatching(e)
      modifies this, worker`incoming, worker`cancelRequests, worker`consumeRequests
      ensures Valid() && M.Tidy(View()) && phase == old(phase)
      ensures var (after, calls) := if Listener(old(records[e.id]), e).Some? then RunScript(old(View()), reply.script)
                                    else (old(View()), []);
              && View() == after
              && M.Tidy(after) && Mailbox() == DeliveredAll(old(Mailbox()), calls + M.EndEvent(after, reply.handled).1)
    {
      hide RunScript, Mailbox, DeliveredAll, Valid;
      DeliveredNone(Mailbox());
      ghost var before, mail := View(), Mailbox();
      ScriptKeeps(before, reply.script);
      if Listener(records[e.id], e).Some? {
        Execute(reply.script);
      }
      ghost var after := View();
      ghost var calls := if Listener(before.records[e.id], e).Some? then RunScript(before, reply.script).1 else [];
      DeliveredConcat(mail, calls, M.EndEvent(after, reply.handled).1);
      DeliveredNone(Mailbox());
      match e {
        case Data(id, body) => PostConsume(id, |body|);
        case Headers(id, _, _) =>
          if records[id].headers.Some? && reply.handled {
            PostCancel(id);
          }
        case _ =>
      }
    }

    method Mark(e: Event)
      requires Valid() && e.id in records && !e.Complete?
      modifies `records, `phase
      ensures Valid() && View() == M.StartEvent(old(View()), e)
    {
      records := records[e.id := records[e.id].(dispatching := true)];
      phase := M.Dispatching(e);
    }

    method Unmark(e: Event, ghost handled: bool)
      requires Valid() && phase == M.Dispatching(e) && e.id in records
      modifies `records, `phase, `released
      ensures Valid() && View() == M.EndEvent(old(View()), handled).0
    {
      hide M.OfRecord, M.OfSlot;
      records := records[e.id := records[e.id].(dispatching := false)];
      phase := M.Idle;
      if records[e.id].dropped {
        assert M.OfRecord(records[e.id]) == M.OfRecord(old(records[e.id])) by { SameForwards(old(records[e.id])); }
        ReleaseRecord(records[e.id]);
        records := records - {e.id};
        assert records == old(records) - {e.id};
      }
    }

    /** HandleIntermediate: the record is marked while its callback runs, and released afterwards if the
        callback dropped it. */
    method HandleIntermediate(e: Event, reply: Reply)
      requires Valid() && M.Tidy(View()) && phase.Idle? && e.id in records && !e.Complete?
      modifies this, worker`incoming, worker`cancelRequests, worker`consumeRequests
      ensures Valid() && View() == Callbacks.HandleEvent(old(View()), e, reply).0
      ensures Mailbox() == DeliveredAll(old(Mailbox()), Callbacks.HandleEvent(old(View()), e, reply).1)
    {
      hide RunScript, Mailbox, DeliveredAll, Valid, M.EndEvent;
      M.ActTidy(View(), M.StartAction(e));
      Mark(e);
      Dispatch(e, reply);
      Unmark(e, reply.handled);
    }

    method TakeOut(e: Event) returns (record: M.Record)
      requires Valid() && e.id in records && e.Complete?
      modifies `records, `phase
      ensures Valid() && View() == M.StartEvent(old(View()), e) && phase == M.Completing(record, e)
    {
      record := records[e.id];
      records := records - {e.id};
      phase := M.Completing(record, e);
    }

    method Retire(record: M.Record, ghost e: Event, ghost handled: bool)
      requires Valid() && phase == M.Completing(record, e)
      modifies `phase, `released
      ensures Valid() && View() == M.EndEvent(old(View()), handled).0 && M.EndEvent(old(View()), handled).1 == []
    {
      ReleaseRecord(record);
      phase := M.Idle;
    }

    /** The last event of a job: its record leaves the table before the callback runs on a copy. */
    method HandleComplete(e: Event, reply: Reply)
      requires Valid() && M.Tidy(View()) && phase.Idle? && e.id in records && e.Complete?
      modifies this, worker`incoming, worker`cancelRequests, worker`consumeRequests
      ensures Valid() && View() == Callbacks.HandleEvent(old(View()), e, reply).0
      ensures Mailbox() == DeliveredAll(old(Mailbox()), Callbacks.HandleEvent(old(View()), e, reply).1)
    {
      hide RunScript, Mailbox, DeliveredAll, Valid, M.EndEvent, M.Tidy;
      M.ActTidy(View(), M.StartAction(e));
      DeliveredNone(Mailbox());
      var record := TakeOut(e);
      ghost var started := View();
      ScriptKeeps(started, reply.script);
      ghost var calls := if record.completed.Some? then RunScript(started, reply.script).1 else [];
      assert calls + [] == calls;
      if record.completed.Some? {
        Execute(reply.script);
      }
      Retire(record, e, reply.handled);
    }

    method HandleEvent(e: Event, reply: Reply)
      requires Valid() && M.Tidy(View()) && phase.Idle?
      modifies this, worker`incoming, worker`cancelRequests, worker`consumeRequests
      ensures Valid() && View() == Callbacks.HandleEvent(old(View()), e, reply).0
      ensures Mailbox() == DeliveredAll(old(Mailbox()), Callbacks.HandleEvent(old(View()), e, reply).1)
    {
      hide RunScript, Mailbox, DeliveredAll, Valid, M.Tidy, M.EndEvent;
      if e.id !in records {
        DeliveredNone(Mailbox());
        return;
      }
      if !e.Complete? {
        HandleIntermediate(e, reply);
        return;
      }
      HandleComplete(e, reply);
    }

    /** OnGameFrame: the queue is swapped out once and its events are handled in order. Events posted
        meanwhile wait for the next frame. */
    method OnGameFrame(replies: seq<Reply>)
      requires Valid() && M.Tidy(View()) && phase.Idle?
      requires queue.Valid() && |replies| == |queue.events|
      modifies this, queue, worker`incoming, worker`cancelRequests, worker`consumeRequests
      ensures Valid() && View() == HandleAll(old(View()), old(queue.events), replies).0
      ensures Mailbox() == DeliveredAll(old(Mailbox()), HandleAll(old(View()), old(queue.events), replies).1)
      ensures queue.events == [] && queue.Valid()
    {
      hide Callbacks.HandleEvent, Mailbox, DeliveredAll, Valid, M.Tidy;
      ghost var before, mail := View(), Mailbox();
      DeliveredNone(mail);
      if !queue.hasEvents {
        return;
      }
      var batch := Drained();
      var n := 0;
      assert batch[..0] == [] && replies[..0] == [];
      while n < |batch|
        invariant n <= |batch| == |replies| && Valid() && queue.events == [] && queue.Valid()
        invariant View() == HandleAll(before, batch[..n], replies[..n]).0
        invariant Mailbox() == DeliveredAll(mail, HandleAll(before, batch[..n], replies[..n]).1)
      {
        assert batch[..n + 1][..n] == batch[..n] && replies[..n + 1][..n] == replies[..n];
        DeliveredConcat(mail, HandleAll(before, batch[..n], replies[..n]).1,
                        Callbacks.HandleEvent(View(), batch[n], replies[n]).1);
        HandleEvent(batch[n], replies[n]);
        n := n + 1;
      }
      assert batch[..n] == batch && replies[..n] == replies;
    }

    method Drained() returns (batch: seq<Event>)
      requires Valid()
      modifies queue
      ensures batch == old(queue.events) && queue.events == [] && queue.Valid() && Valid()
    {
      batch := queue.Drain();
    }

    // ---------------------------------------------------------------- unload

    method ReleaseAllRecords()
      modifies `records, `released
      ensures records == map[]
      ensures forall f: M.Forward :: released[f] == old(released[f]) + M.Total(old(records), M.InRecord, f)
    {
      ghost var total := old(records);
      while exists id :: id in records
        invariant forall f: M.Forward ::
                    released[f] + M.Total(records, M.InRecord, f) == old(released[f]) + M.Total(total, M.InRecord, f)
        decreases |records|
      {
        hide M.OfRecord, M.InRecord, M.Total;
        var id :| id in records;
        forall f: M.Forward
          ensures M.Total(records, M.InRecord, f) == M.InRecord(records[id], f) + M.Total(records - {id}, M.InRecord, f)
          ensures M.OfRecord(records[id])[f] == M.InRecord(records[id], f)
        {
          M.TotalTakesOut(records, M.InRecord, f, id);
          M.CountOfRecord(records[id], f);
        }
        ReleaseRecord(records[id]);
        records := records - {id};
      }
    }

    /** Removing the request handle type destroys the request handles that are left. */
    method FreeAllRequests()
      modifies `requests, `released
      ensures requests == map[]
      ensures forall f: M.Forward :: released[f] == old(released[f]) + M.Total(old(requests), M.InRequest, f)
    {
      ghost var total := old(requests);
      while exists handle :: handle in requests
        invariant forall f: M.Forward ::
                    released[f] + M.Total(requests, M.InRequest, f) == old(released[f]) + M.Total(total, M.InRequest, f)
        decreases |requests|
      {
        hide M.OfRequest, M.InRequest, M.Total;
        var handle :| handle in requests;
        forall f: M.Forward
          ensures M.Total(requests, M.InRequest, f)
               == M.InRequest(requests[handle], f) + M.Total(requests - {handle}, M.InRequest, f)
          ensures M.OfRequest(requests[handle])[f] == M.InRequest(requests[handle], f)
        {
          M.TotalTakesOut(requests, M.InRequest, f, handle);
          M.CountOfRequest(requests[handle], f);
        }
        FreeRequest(handle);
      }
    }

    /** SDK_OnUnload: the queue is disabled first, so what the joined worker still posts is discarded. */
    method OnUnload()
      requires Valid()
      modifies `records, `requests, `released, queue, worker`active, worker`incoming, worker.active
      ensures M.Unloaded(old(View()), View())
      ensures worker.active == [] && worker.incoming == []
      ensures queue.events == [] && !queue.enabled
    {
      hide M.Total;
      queue.SetEnabled(false);
      worker.Stop();
      var discarded := queue.Drain();
      ReleaseAllRecords();
      FreeAllRequests();
    }
  }

  /** The two halves of a turn of the worker leave the extension as its natives and frames need it. */
  method BeginWorkerTurn(e: Extension, now: int, first: seq<S.BeginAnswers>, again: seq<S.BeginAnswers>)
    requires e.Valid()
    requires |first| == |e.worker.incoming| && |again| == |e.worker.active| + |e.worker.incoming|
    modifies e.worker, e.worker.active, e.worker.incoming, e.queue, e.store
    ensures e.Valid() && e.worker.active == old(e.worker.active) + old(e.worker.incoming)
  {
    e.worker.BeginTurn(now, first, again, e.nextJobId);
  }

  method EndWorkerTurn(e: Extension, messages: seq<DoneMessage>)
    requires e.Valid() && Deliverable(Views(e.worker.active), messages)
    modifies e.worker`active, e.worker.active, e.queue, e.store
    ensures e.Valid() && forall i :: 0 <= i < |e.worker.active| ==> !e.worker.active[i].finished
  {
    e.worker.EndTurn(messages, e.nextJobId);
  }
}
