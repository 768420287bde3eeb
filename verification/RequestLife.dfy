/** From RESTClient.Request to the last callback: what was set on a request is what its job runs with, and
    its client and its sender keep their hold on it (src/natives.cpp:266-300, 460-599,
    src/extension.cpp:175-390). */
module RequestLife {
  import opened Maybe
  import opened Events
  import opened MainThread
  import opened Callbacks

  // ---------------------------------------------------------------- single natives

  /** A new request belongs to the client it was made on and has no callback. */
  lemma NewRequestMeaning(m: Main, client: int, spec: RequestSpec)
    ensures var m' := NewRequest(m, client, spec);
            && m.nextHandle in m'.requests && m'.nextHandle > m.nextHandle
            && m'.requests[m.nextHandle].client == client && m'.requests[m.nextHandle].spec == spec
            && m'.requests[m.nextHandle].headers.None? && m'.requests[m.nextHandle].data.None?
            && m'.requests[m.nextHandle].progress.None?
            && forall h :: h in m.requests && h != m.nextHandle ==> h in m'.requests && m'.requests[h] == m.requests[h]
  {
  }

  /** Setting a callback fills its own slot with a forward that no one had before and tells the worker to post
      that kind of event; the other slots keep theirs, and of this request only what the slot held is released. */
  lemma SetCallbackMeaning(m: Main, handle: int, which: Which)
    requires handle in m.requests
    ensures var m' := SetCallback(m, handle, which);
            var (r, r') := (m.requests[handle], m'.requests[handle]);
            && r'.headers == (if which == HeadersSlot then Some(m.nextForward) else r.headers)
            && r'.data == (if which == DataSlot then Some(m.nextForward) else r.data)
            && r'.progress == (if which == ProgressSlot then Some(m.nextForward) else r.progress)
            && (r'.spec.wantHeaders <==> r.spec.wantHeaders || which == HeadersSlot)
            && (r'.spec.streamData <==> r.spec.streamData || which == DataSlot)
            && r'.spec == r.spec.(wantHeaders := r'.spec.wantHeaders, streamData := r'.spec.streamData)
            && r'.client == r.client && m'.nextForward == m.nextForward + 1
            && m'.released == m.released + (match which case HeadersSlot => OfSlot(r.headers)
                                                       case DataSlot => OfSlot(r.data)
                                                       case ProgressSlot => OfSlot(r.progress))
            && m' == m.(requests := m.requests[handle := r'], nextForward := m'.nextForward, released := m'.released)
  {
  }

  /** The record of a sent request: on the client of the request, owned by the sender, with each callback in
      the slot it was set for, and nothing under way. The worker gets the request under the record's id. */
  lemma SendMeaning(m: Main, handle: int, owner: int)
    requires handle in m.requests && Tidy(m)
    ensures var (m', calls) := Send(m, handle, owner);
            var (r, id) := (m.requests[handle], m.nextJobId);
            && id !in m.records && id in m'.records && handle !in m'.requests
            && m'.records[id].id == id && m'.records[id].client == r.client && m'.records[id].owner == owner
            && m'.records[id].headers == r.headers && m'.records[id].data == r.data
            && m'.records[id].progress == r.progress && m'.records[id].completed == Some(m.nextForward)
            && !m'.records[id].dispatching && !m'.records[id].dropped
            && calls == [Enqueue(r.spec.(id := id))]
            && (forall k :: k in m.records ==> k in m'.records && m'.records[k] == m.records[k])
            && m'.nextForward == m.nextForward + 1 && m'.nextJobId == id + 1 && m'.released == m.released
  {
  }

  // ---------------------------------------------------------------- a request until it is sent

  /** The forward the script last set for this kind of event. */
  function LastSet(m: Main, script: seq<ApiCall>, handle: int, which: Which): Option<Forward> {
    if script == [] then None
    else
      var init := script[..|script| - 1];
      if script[|script| - 1] == CallSetCallback(handle, which) then Some(RunScript(m, init).0.nextForward)
      else LastSet(m, init, handle, which)
  }

  lemma CallOnRequest(m: Main, c: ApiCall, handle: int)
    requires Tidy(m) && handle < m.nextHandle
    ensures var m' := Perform(m, c).0;
            && handle < m'.nextHandle
            && (handle in m'.requests ==> handle in m.requests)
            && (handle in m'.requests && !(c.CallSetCallback? && c.handle == handle) ==>
                  m'.requests[handle] == m.requests[handle])
  {
    if c.CallDrop? {
      DropReaches(m, c.who, c.order);
    }
    hide Tidy, DropEach;
  }

  /** Whatever else happens meanwhile: as long as a request is neither sent nor freed it stays on its client,
      and each slot holds what was last set for it. */
  lemma {:induction false} RequestTracks(m: Main, handle: int, client: int, spec: RequestSpec, script: seq<ApiCall>)
    requires Tidy(m) && handle < m.nextHandle && handle in m.requests
    requires m.requests[handle] == Request(spec, client, None, None, None)
    ensures var m' := RunScript(m, script).0;
            && handle < m'.nextHandle
            && (handle in m'.requests ==>
                  && m'.requests[handle].client == client
                  && m'.requests[handle].headers == LastSet(m, script, handle, HeadersSlot)
                  && m'.requests[handle].data == LastSet(m, script, handle, DataSlot)
                  && m'.requests[handle].progress == LastSet(m, script, handle, ProgressSlot))
            && (handle in m'.requests ==>
                  m'.requests[handle].spec
                  == spec.(wantHeaders := spec.wantHeaders || LastSet(m, script, handle, HeadersSlot).Some?,
                           streamData := spec.streamData || LastSet(m, script, handle, DataSlot).Some?))
  {
    if script != [] {
      hide Tidy, Perform;
      var init, last := script[..|script| - 1], script[|script| - 1];
      RequestTracks(m, handle, client, spec, init);
      ScriptKeeps(m, init);
      var before := RunScript(m, init).0;
      CallOnRequest(before, last, handle);
      if last.CallSetCallback? && last.handle == handle && handle in before.requests {
        SetCallbackMeaning(before, handle, last.which);
        SetCallbackIsPerformed(before, handle, last.which);
        hide SetCallback;
      }
    }
  }

  lemma SetCallbackIsPerformed(m: Main, handle: int, which: Which)
    ensures Perform(m, CallSetCallback(handle, which)) == (SetCallback(m, handle, which), [])
  {
  }

  // ---------------------------------------------------------------- its record, once it is sent

  lemma {:induction false} RunBoth(m: Main, a: seq<ApiCall>, b: seq<ApiCall>)
    ensures RunScript(m, a + b).0 == RunScript(RunScript(m, a).0, b).0
    ensures RunScript(m, a + b).1 == RunScript(m, a).1 + RunScript(RunScript(m, a).0, b).1
  {
    hide Perform;
    if b == [] {
      assert a + b == a;
      assert RunScript(m, a).1 + [] == RunScript(m, a).1;
    } else {
      var init := b[..|b| - 1];
      RunBoth(m, a, init);
      assert (a + b)[..|a + b| - 1] == a + init;
    }
  }

  lemma RunOne(m: Main, c: ApiCall)
    ensures RunScript(m, [c]) == Perform(m, c)
  {
    hide Perform;
    assert [c][..0] == [];
    assert RunScript(m, []) == (m, []);
    assert [] + Perform(m, c).1 == Perform(m, c).1;
  }

  /** A drop that comes past the record asks to cancel the job. */
  lemma {:induction false} DropAsks(m: Main, who: Who, order: seq<int>, id: int)
    requires Tidy(m) && id in m.records && id in order && Hit(m.records[id], who)
    ensures CancelCall(id) in DropEach(m, who, order).1
  {
    var init, last := order[..|order| - 1], order[|order| - 1];
    assert order == init + [last];
    DropReaches(m, who, init);
    hide Tidy, OfRecord;
    if id in init {
      DropAsks(m, who, init, id);
      hide DropOne;
    }
  }

  lemma CallOnRecord(m: Main, c: ApiCall, id: int)
    requires Tidy(m) && id in m.records
    ensures var (m', calls) := Perform(m, c);
            && (id in m'.records ==> m'.records[id] == m.records[id].(dropped := m'.records[id].dropped))
            && (id !in m'.records || m'.records[id].dropped ==> CancelCall(id) in calls || m.records[id].dropped)
  {
    if c.CallDrop? {
      DropReaches(m, c.who, c.order);
      if id in c.order && Hit(m.records[id], c.who) {
        DropAsks(m, c.who, c.order, id);
      }
      hide Tidy, DropEach;
    } else {
      OthersKeepRecords(m, c);
      hide Perform;
    }
  }

  /** Nothing a callback does changes whose job it is or who hears of it; it can only end in a drop, which
      asks to cancel it. */
  lemma {:induction false} RecordTracks(m: Main, script: seq<ApiCall>, id: int)
    requires Tidy(m) && id in m.records && !m.records[id].dropped
    ensures var (m', calls) := RunScript(m, script);
            && (id in m'.records ==> m'.records[id] == m.records[id].(dropped := m'.records[id].dropped))
            && (id !in m'.records || m'.records[id].dropped ==> CancelCall(id) in calls)
  {
    if script != [] {
      hide Perform;
      var init, last := script[..|script| - 1], script[|script| - 1];
      RecordTracks(m, init, id);
      ScriptKeeps(m, init);
      var before := RunScript(m, init).0;
      if id in before.records {
        CallOnRecord(before, last, id);
      } else {
        StaysAway(m, before, last, id);
      }
      hide Tidy;
    }
  }

  lemma StaysAway(m: Main, before: Main, c: ApiCall, id: int)
    requires Tidy(m) && id in m.records && Tidy(before) && before.nextJobId >= m.nextJobId && id !in before.records
    ensures id !in Perform(before, c).0.records
  {
    assert id < m.nextJobId;
    PerformKeepsSilence(before, c, id);
    PerformKeeps(before, c);
    if c.CallDrop? {
      DropReaches(before, c.who, c.order);
    } else {
      OthersKeepRecords(before, c);
    }
    hide Tidy, DropEach;
  }

  /** Deleting the client a request was made on, or unloading the plugin that sent it, at any time after it was
      sent: its record is gone, and the worker has been asked to run it and to cancel it. */
  lemma DroppedAfterSend(m: Main, handle: int, owner: int, script: seq<ApiCall>, who: Who, order: seq<int>)
    requires Tidy(m) && handle in m.requests
    requires who == OfClient(m.requests[handle].client) || who == OfOwner(owner)
    requires Walks(order, RunScript(m, [CallSend(handle, owner, true)] + script).0.records)
    ensures var (m', calls) := RunScript(m, [CallSend(handle, owner, true)] + script + [CallDrop(who, order)]);
            && m.nextJobId !in m'.records
            && Enqueue(m.requests[handle].spec.(id := m.nextJobId)) in calls && CancelCall(m.nextJobId) in calls
  {
    hide Tidy, Perform, RunScript;
    var id := m.nextJobId;
    var send := CallSend(handle, owner, true);
    SentRecord(m, handle, owner, script);
    RunBoth(m, [send] + script, [CallDrop(who, order)]);
    ScriptKeeps(m, [send] + script);
    var before := RunScript(m, [send] + script).0;
    RunOne(before, CallDrop(who, order));
    DropIsPerformed(before, who, order);
    DropReaches(before, who, order);
    if id in before.records {
      DropAsks(before, who, order, id);
    }
    hide DropEach;
  }

  lemma DropIsPerformed(m: Main, who: Who, order: seq<int>)
    ensures Perform(m, CallDrop(who, order)) == DropEach(m, who, order)
  {
  }

  /** What is known of a sent request after any script that follows. */
  lemma SentRecord(m: Main, handle: int, owner: int, script: seq<ApiCall>)
    requires Tidy(m) && handle in m.requests
    ensures var (m', calls) := RunScript(m, [CallSend(handle, owner, true)] + script);
            var (r, id) := (m.requests[handle], m.nextJobId);
            && Enqueue(r.spec.(id := id)) in calls
            && (id !in m'.records || m'.records[id].dropped ==> CancelCall(id) in calls)
            && (id in m'.records ==>
                  m'.records[id] == Record(id, r.client, owner, Some(m.nextForward), r.headers, r.data, r.progress,
                                           false, m'.records[id].dropped))
  {
    hide Tidy, Perform, RunScript;
    var send := CallSend(handle, owner, true);
    RunBoth(m, [send], script);
    RunOne(m, send);
    ScriptKeeps(m, [send]);
    SendMeaning(m, handle, owner);
    SendIsPerformed(m, handle, owner);
    RecordTracks(Send(m, handle, owner).0, script, m.nextJobId);
    hide Send;
  }

  lemma SendIsPerformed(m: Main, handle: int, owner: int)
    ensures Perform(m, CallSend(handle, owner, true)) == Send(m, handle, owner)
    ensures Perform(m, CallSend(handle, owner, false)) == (m, [])
  {
  }

  /** RESTClient.Cancel of a job there is: the sender's cancels it, any other plugin's does nothing. */
  lemma CancelAfterSend(m: Main, handle: int, owner: int, script: seq<ApiCall>, requester: int)
    requires Tidy(m) && handle in m.requests
    ensures var m' := RunScript(m, [CallSend(handle, owner, true)] + script).0;
            CancelJob(m', m.nextJobId, requester)
            == if requester == owner && m.nextJobId in m'.records then [CancelCall(m.nextJobId)] else []
  {
    hide RunScript;
    SentRecord(m, handle, owner, script);
  }

  /** The whole life: a request is made, things happen, it is sent, things happen. If its record is still there,
      each kind of event is heard by exactly the callback last set for that kind, and the completion by the
      one given to Send. */
  lemma EachKindHasItsCallback(m: Main, client: int, spec: RequestSpec, before: seq<ApiCall>, owner: int,
                               after: seq<ApiCall>, e: Event)
    requires Tidy(m)
    requires m.nextHandle in RunScript(NewRequest(m, client, spec), before).0.requests
    ensures var m1 := NewRequest(m, client, spec);
            var m2 := RunScript(m1, before).0;
            var m3 := RunScript(m2, [CallSend(m.nextHandle, owner, true)] + after).0;
            m2.nextJobId in m3.records ==>
              && m3.records[m2.nextJobId].client == client && m3.records[m2.nextJobId].owner == owner
              && Listener(m3.records[m2.nextJobId], e)
                 == match e
                    case Headers(_, _, _) => LastSet(m1, before, m.nextHandle, HeadersSlot)
                    case Data(_, _) => LastSet(m1, before, m.nextHandle, DataSlot)
                    case Progress(_, _, _, _, _) => LastSet(m1, before, m.nextHandle, ProgressSlot)
                    case Complete(_, _, _, _, _, _) => Some(m2.nextForward)
  {
    hide RunScript, LastSet;
    var m1 := NewRequest(m, client, spec);
    NewRequestMeaning(m, client, spec);
    ActTidy(m, NewRequestAction(client, spec));
    hide Tidy, NewRequest;
    RequestTracks(m1, m.nextHandle, client, spec, before);
    ScriptKeeps(m1, before);
    SentRecord(RunScript(m1, before).0, m.nextHandle, owner, after);
  }

  // ---------------------------------------------------------------- one event

  /** What the worker is told while an event is handled: what the callback asks for, if there is one, and then
      the credit for a Data event, heard or not, and the cancel a headers callback asks for by its answer. */
  lemma EventAsks(m: Main, e: Event, reply: Reply)
    requires Tidy(m) && m.phase.Idle?
    ensures var calls := HandleEvent(m, e, reply).1;
            if e.id !in m.records then calls == []
            else
              var heard := Listener(m.records[e.id], e).Some?;
              calls == (if heard then RunScript(StartEvent(m, e), reply.script).1 else [])
                       + (if e.Data? then [ConsumeCall(e.id, |e.body|)]
                          else if e.Headers? && heard && reply.handled then [CancelCall(e.id)]
                          else [])
  {
    hide RunScript, OfRecord;
    if e.id in m.records {
      var started := StartEvent(m, e);
      ActTidy(m, StartAction(e));
      ScriptKeeps(started, reply.script);
      if !e.Complete? {
        NoneDropped(m, started, e);
        RecordTracks(started, reply.script, e.id);
        StillThere(started, reply.script, e.id);
      }
    }
  }

  /** The record whose callback is running outlasts it. */
  lemma StillThere(m: Main, script: seq<ApiCall>, id: int)
    requires Tidy(m) && m.phase.Dispatching? && m.phase.event.id == id
    ensures id in RunScript(m, script).0.records
  {
    ScriptKeeps(m, script);
    hide RunScript;
  }

  lemma NoneDropped(m: Main, started: Main, e: Event)
    requires Tidy(m) && m.phase.Idle? && started == StartEvent(m, e)
    ensures forall id :: id in started.records ==>
              && id in m.records && !started.records[id].dropped && !m.records[id].dropped && !m.records[id].dispatching
              && started.records[id] == m.records[id].(dispatching := started.records[id].dispatching)
    ensures forall id :: id in m.records && !(e.Complete? && e.id == id) ==> id in started.records
  {
  }

  /** The end of an event takes nothing away but the record of this event, and that only when it was dropped. */
  lemma EndOnRecord(m: Main, handled: bool, id: int)
    requires Tidy(m) && id in m.records
    ensures var m' := EndEvent(m, handled).0;
            && (id in m'.records <==> !m.records[id].dropped)
            && (id in m'.records ==> m'.records[id] == m.records[id].(dispatching := false))
  {
    hide OfRecord;
  }

  /** Between two events every record is as it was sent. A record leaves the table with its completion, or when a
      callback drops it, and then its job is to be cancelled. */
  lemma EventOnRecord(m: Main, e: Event, reply: Reply, id: int)
    requires Tidy(m) && m.phase.Idle? && id in m.records
    ensures var (m', calls) := HandleEvent(m, e, reply);
            && (id in m'.records ==> m'.records[id] == m.records[id])
            && (e.Complete? && e.id == id ==> id !in m'.records)
            && (id !in m'.records && !(e.Complete? && e.id == id) ==> CancelCall(id) in calls)
  {
    hide RunScript, EndEvent, StartEvent;
    EventKeeps(m, e, reply);
    if e.id in m.records {
      var started := StartEvent(m, e);
      ActTidy(m, StartAction(e));
      ScriptKeeps(started, reply.script);
      NoneDropped(m, started, e);
      if e.Complete? && e.id == id {
        OwnCompletion(m, e, reply);
      } else {
        RecordTracks(started, reply.script, id);
        var after := if Listener(m.records[e.id], e).Some? then RunScript(started, reply.script).0 else started;
        if id in after.records {
          EndOnRecord(after, reply.handled, id);
        } else {
          EndBringsNothing(after, reply.handled, id);
        }
      }
    }
    hide Tidy;
  }

  lemma EndBringsNothing(m: Main, handled: bool, id: int)
    requires Tidy(m) && id !in m.records
    ensures id !in EndEvent(m, handled).0.records
  {
  }

  lemma OwnCompletion(m: Main, e: Event, reply: Reply)
    requires Tidy(m) && m.phase.Idle? && e.id in m.records && e.Complete?
    ensures e.id !in HandleEvent(m, e, reply).0.records
  {
    var started := StartEvent(m, e);
    ActTidy(m, StartAction(e));
    PlainSilence(started, reply.script, e.id);
    ScriptKeeps(started, reply.script);
    hide RunScript, OfRecord;
  }

  lemma PlainSilence(m: Main, script: seq<ApiCall>, id: int)
    requires Tidy(m) && id < m.nextJobId && id !in m.records
    ensures id !in RunScript(m, script).0.records
  {
    ScriptSilences(m, script, id, OfClient(0));
    ScriptKeeps(m, script);
    hide RunScript;
  }

  /** Over a whole batch, and so between any two frames, the same. */
  lemma {:induction false} BatchOnRecord(m: Main, batch: seq<Event>, replies: seq<Reply>, id: int)
    requires Tidy(m) && m.phase.Idle? && |replies| == |batch| && id in m.records
    ensures var (m', calls) := HandleAll(m, batch, replies);
            && (id in m'.records ==> m'.records[id] == m.records[id])
            && (id !in m'.records ==> CancelCall(id) in calls || exists e :: e in batch && e.Complete? && e.id == id)
            && (id in m'.records ==> forall e :: e in batch && e.Complete? ==> e.id != id)
  {
    if batch != [] {
      hide Tidy, HandleEvent;
      var n := |batch| - 1;
      assert batch == batch[..n] + [batch[n]];
      BatchOnRecord(m, batch[..n], replies[..n], id);
      var m1 := HandleAll(m, batch[..n], replies[..n]).0;
      if id in m1.records {
        EventOnRecord(m1, batch[n], replies[n], id);
      } else {
        RecordIsOld(m, batch[..n], replies[..n], id);
        EventKeepsAbsent(m1, batch[n], replies[n], id);
      }
    }
  }

  lemma {:induction false} RecordIsOld(m: Main, batch: seq<Event>, replies: seq<Reply>, id: int)
    requires Tidy(m) && m.phase.Idle? && |replies| == |batch| && id in m.records
    ensures id < HandleAll(m, batch, replies).0.nextJobId
  {
    if batch != [] {
      hide HandleEvent;
      var n := |batch| - 1;
      RecordIsOld(m, batch[..n], replies[..n], id);
      EventKeeps(HandleAll(m, batch[..n], replies[..n]).0, batch[n], replies[n]);
    }
  }
}
