/** Everything plugin code can do while the main thread runs it: a callback is an arbitrary finite
    sequence of API calls, made while its event is being handled (src/extension.cpp:175-329). */
module Callbacks {
  import opened Maybe
  import opened Events
  import opened MainThread

  /** Whose jobs are dropped: a deleted client's, or an unloaded plugin's. */
  datatype Who = OfClient(client: int) | OfOwner(owner: int)

  predicate Hit(r: Record, who: Who) {
    match who
    case OfClient(client) => r.client == client
    case OfOwner(owner) => r.owner == owner
  }

  /** Drops each hit among the ids of `order`: the order in which the hash table happens to be walked. */
  function DropEach(m: Main, who: Who, order: seq<int>): (Main, seq<Call>) {
    if order == [] then (m, [])
    else
      var id := order[|order| - 1];
      var (m1, calls) := DropEach(m, who, order[..|order| - 1]);
      var (m2, more) := DropOne(m1, who, id);
      (m2, calls + more)
  }

  function DropOne(m: Main, who: Who, id: int): (Main, seq<Call>) {
    if id in m.records && Hit(m.records[id], who) then DropJob(m, id) else (m, [])
  }

  /** CancelJobsForClient, over the table in the order it is walked. */
  function CancelEach(m: Main, client: int, requester: int, order: seq<int>): seq<Call> {
    if order == [] then []
    else
      var id := order[|order| - 1];
      CancelEach(m, client, requester, order[..|order| - 1])
      + (if id in m.records && m.records[id].client == client && m.records[id].owner == requester
         then [CancelCall(id)] else [])
  }

  /** `order` is the order in which the hash table is walked; `accepted` says that the URL is absolute and
      the callback a function of the plugin. */
  datatype ApiCall =
    | CallNewRequest(client: int, spec: RequestSpec)
    | CallSetCallback(handle: int, which: Which)
    | CallFree(handle: int)
    | CallSend(handle: int, owner: int, accepted: bool)
    | CallCancel(id: int, requester: int)
    | CallCancelAll(client: int, requester: int, order: seq<int>)
    | CallDrop(who: Who, order: seq<int>)

  function Perform(m: Main, c: ApiCall): (Main, seq<Call>) {
    match c
    case CallNewRequest(client, spec) => (NewRequest(m, client, spec), [])
    case CallSetCallback(handle, which) => (SetCallback(m, handle, which), [])
    case CallFree(handle) => (FreeRequest(m, handle), [])
    case CallSend(handle, owner, accepted) => if accepted then Send(m, handle, owner) else (m, [])
    case CallCancel(id, requester) => (m, CancelJob(m, id, requester))
    case CallCancelAll(client, requester, order) => (m, CancelEach(m, client, requester, order))
    case CallDrop(who, order) => DropEach(m, who, order)
  }

  function RunScript(m: Main, script: seq<ApiCall>): (Main, seq<Call>) {
    if script == [] then (m, [])
    else
      var (m1, calls) := RunScript(m, script[..|script| - 1]);
      var (m2, more) := Perform(m1, script[|script| - 1]);
      (m2, calls + more)
  }

  // ---------------------------------------------------------------- what dropping does

  lemma DropOneShape(m: Main, who: Who, id: int)
    requires Tidy(m)
    ensures var m' := DropOne(m, who, id).0;
            && Tidy(m') && (Linear(m) ==> Linear(m'))
            && m' == m.(records := m'.records, released := m'.released)
            && (forall k :: k in m'.records <==>
                  k in m.records && !(k == id && Hit(m.records[k], who) && !m.records[k].dispatching))
            && (forall k :: k in m'.records ==>
                  m'.records[k] == if k == id && Hit(m.records[k], who) then m.records[k].(dropped := true)
                                   else m.records[k])
  {
    if id in m.records && Hit(m.records[id], who) {
      ActTidy(m, DropAction(id));
      if Linear(m) {
        ActLinear(m, DropAction(id));
      }
    }
    hide Tidy, Linear, Hit;
  }

  /** Dropping removes each of the client's or plugin's records, except the one whose callback is
      running, which it marks; it touches no other record. */
  lemma {:induction false} DropReaches(m: Main, who: Who, order: seq<int>)
    requires Tidy(m)
    ensures var m' := DropEach(m, who, order).0;
            && Tidy(m') && (Linear(m) ==> Linear(m'))
            && m' == m.(records := m'.records, released := m'.released)
            && (forall k :: k in m'.records <==>
                  k in m.records && !(k in order && Hit(m.records[k], who) && !m.records[k].dispatching))
            && (forall k :: k in m'.records ==>
                  m'.records[k] == if k in order && Hit(m.records[k], who) then m.records[k].(dropped := true)
                                   else m.records[k])
  {
    if order != [] {
      var init := order[..|order| - 1];
      var last := order[|order| - 1];
      DropReaches(m, who, init);
      DropOneShape(DropEach(m, who, init).0, who, last);
      assert order == init + [last];
      forall k ensures k in order <==> k in init || k == last {
      }
      hide Tidy, Linear, DropOne;
    }
  }

  /** The worker is told to cancel exactly the jobs that are dropped, once each. */
  lemma {:induction false} DropCancels(m: Main, who: Who, order: seq<int>)
    requires Tidy(m)
    requires forall i, k :: 0 <= i < k < |order| ==> order[i] != order[k]
    ensures var calls := DropEach(m, who, order).1;
            && (forall i :: 0 <= i < |calls| ==>
                  calls[i].CancelCall? && calls[i].id in order && calls[i].id in m.records
                      && Hit(m.records[calls[i].id], who))
            && (forall id :: id in order && id in m.records && Hit(m.records[id], who) ==> CancelCall(id) in calls)
            && (forall i, k :: 0 <= i < k < |calls| ==> calls[i].id != calls[k].id)
  {
    hide Tidy, Hit, DropEach, DropOne;
    if order == [] {
      NothingDropped(m, who);
    } else {
      var init, last := order[..|order| - 1], order[|order| - 1];
      DropCancels(m, who, init);
      LastDropped(m, who, init, last);
      assert order == init + [last] && last !in init;
    }
  }

  lemma NothingDropped(m: Main, who: Who)
    ensures DropEach(m, who, []) == (m, [])
  {
  }

  /** The last id of the walk adds at most its own cancel. */
  lemma LastDropped(m: Main, who: Who, init: seq<int>, last: int)
    requires Tidy(m) && last !in init
    ensures DropEach(m, who, init + [last]).1
         == DropEach(m, who, init).1
            + (if last in m.records && Hit(m.records[last], who) then [CancelCall(last)] else [])
  {
    hide Tidy, Hit, OfRecord;
    DropReaches(m, who, init);
    assert (init + [last])[..|init|] == init;
    var m1 := DropEach(m, who, init).0;
    assert last in m.records <==> last in m1.records by { NotYetDropped(m, who, init, last); }
    assert last in m.records ==> m1.records[last] == m.records[last];
    hide DropEach;
  }

  lemma NotYetDropped(m: Main, who: Who, init: seq<int>, last: int)
    requires Tidy(m) && last !in init
    ensures last in m.records <==> last in DropEach(m, who, init).0.records
  {
    hide Tidy, Hit, DropEach;
    DropReaches(m, who, init);
  }

  /** CancelJobsForClient asks for exactly the requester's own jobs of that client. */
  lemma {:induction false} CancelReaches(m: Main, client: int, requester: int, order: seq<int>, id: int)
    ensures CancelCall(id) in CancelEach(m, client, requester, order)
       <==> id in order && id in m.records && m.records[id].client == client && m.records[id].owner == requester
  {
    if order != [] {
      CancelReaches(m, client, requester, order[..|order| - 1], id);
      assert order == order[..|order| - 1] + [order[|order| - 1]];
    }
  }

  /** A walk of the whole table, each record once. */
  ghost predicate Walks(order: seq<int>, records: map<int, Record>) {
    && (forall id :: id in order <==> id in records)
    && (forall i, k :: 0 <= i < k < |order| ==> order[i] != order[k])
  }

  /** Deleting a client, or unloading a plugin, leaves it no record but the one whose callback is running,
      leaves every other record as it was, and asks to cancel exactly its jobs. */
  lemma DropAllReaches(m: Main, who: Who, order: seq<int>)
    requires Tidy(m) && Walks(order, m.records)
    ensures var (m', calls) := DropEach(m, who, order);
            && (forall id :: id in m'.records <==>
                  id in m.records && (Hit(m.records[id], who) ==> m.records[id].dispatching))
            && (forall id :: id in m'.records ==>
                  m'.records[id] == if Hit(m.records[id], who) then m.records[id].(dropped := true) else m.records[id])
            && (forall id :: CancelCall(id) in calls <==> id in m.records && Hit(m.records[id], who))
            && (forall i, k :: 0 <= i < k < |calls| ==> calls[i] != calls[k])
  {
    DropReaches(m, who, order);
    DropCancels(m, who, order);
    hide Tidy, DropEach, Hit;
  }

  /** The jobs CancelAll is meant for. */
  function Own(records: map<int, Record>, client: int, requester: int): set<int> {
    set id | id in records && records[id].client == client && records[id].owner == requester
  }

  /** CancelJobsForClient asks to cancel exactly the requester's jobs of the client, and counts them. */
  lemma CancelAllReaches(m: Main, client: int, requester: int, order: seq<int>)
    requires Walks(order, m.records)
    ensures var calls := CancelEach(m, client, requester, order);
            && (forall id :: CancelCall(id) in calls <==> id in Own(m.records, client, requester))
            && |calls| == |Own(m.records, client, requester)|
  {
    forall id ensures CancelCall(id) in CancelEach(m, client, requester, order) <==>
        id in Own(m.records, client, requester) {
      CancelReaches(m, client, requester, order, id);
    }
    CancelCount(m, client, requester, order);
    var own := Own(m.records, client, requester);
    hide Own;
    forall id ensures id in Among(order, own) <==> id in own {
      OwnIsListed(m.records, client, requester, id);
    }
    assert Among(order, own) == own;
  }

  function Among(order: seq<int>, own: set<int>): set<int> {
    set id | id in order && id in own
  }

  lemma OwnIsListed(records: map<int, Record>, client: int, requester: int, id: int)
    ensures id in Own(records, client, requester)
       <==> id in records && records[id].client == client && records[id].owner == requester
  {
  }

  lemma {:induction false} CancelCount(m: Main, client: int, requester: int, order: seq<int>)
    requires forall i, k :: 0 <= i < k < |order| ==> order[i] != order[k]
    ensures |CancelEach(m, client, requester, order)| == |Among(order, Own(m.records, client, requester))|
  {
    if order != [] {
      var init, last := order[..|order| - 1], order[|order| - 1];
      var own := Own(m.records, client, requester);
      OwnIsListed(m.records, client, requester, last);
      hide Own;
      CancelCount(m, client, requester, init);
      AmongSnoc(init, last, own);
      assert order == init + [last];
    }
  }

  lemma AmongSnoc(init: seq<int>, last: int, own: set<int>)
    requires last !in init
    ensures |Among(init + [last], own)| == |Among(init, own)| + (if last in own then 1 else 0)
  {
    assert Among(init + [last], own) == if last in own then Among(init, own) + {last} else Among(init, own);
  }

  // ---------------------------------------------------------------- what a callback keeps

  lemma PerformKeeps(m: Main, c: ApiCall)
    requires Tidy(m)
    ensures Tidy(Perform(m, c).0)
    ensures Linear(m) ==> Linear(Perform(m, c).0)
    ensures Perform(m, c).0.phase == m.phase && Perform(m, c).0.nextJobId >= m.nextJobId
  {
    match c {
      case CallDrop(who, order) =>
        DropReaches(m, who, order);
        hide Tidy, Linear, DropEach;
      case CallCancel(_, _) =>
      case CallCancelAll(_, _, _) =>
      case CallNewRequest(client, spec) => OneAction(m, NewRequestAction(client, spec));
      case CallSetCallback(handle, which) => OneAction(m, SetCallbackAction(handle, which));
      case CallFree(handle) => OneAction(m, FreeRequestAction(handle));
      case CallSend(handle, owner, _) => OneAction(m, SendAction(handle, owner));
    }
  }

  lemma OneAction(m: Main, a: Action)
    requires Tidy(m) && Allowed(m, a)
    ensures Tidy(Act(m, a)) && (Linear(m) ==> Linear(Act(m, a)))
  {
    ActTidy(m, a);
    if Linear(m) {
      ActLinear(m, a);
    }
    hide Act, Tidy, Linear;
  }

  lemma {:induction false} ScriptKeeps(m: Main, script: seq<ApiCall>)
    requires Tidy(m)
    ensures Tidy(RunScript(m, script).0)
    ensures Linear(m) ==> Linear(RunScript(m, script).0)
    ensures RunScript(m, script).0.phase == m.phase && RunScript(m, script).0.nextJobId >= m.nextJobId
  {
    if script != [] {
      hide Tidy, Linear, Perform;
      ScriptKeeps(m, script[..|script| - 1]);
      PerformKeeps(RunScript(m, script[..|script| - 1]).0, script[|script| - 1]);
    }
  }

  // ---------------------------------------------------------------- one event, one frame

  /** What the plugin does in its callback and how a headers callback answers. A callback that does
      not run (no functions left, no response handle) is an empty script with `handled` false. */
  datatype Reply = Reply(script: seq<ApiCall>, handled: bool)

  /** The forward that hears this event. */
  function Listener(r: Record, e: Event): Option<Forward> {
    match e
    case Progress(_, _, _, _, _) => r.progress
    case Headers(_, _, _) => r.headers
    case Data(_, _) => r.data
    case Complete(_, _, _, _, _, _) => r.completed
  }

  function HandleEvent(m: Main, e: Event, reply: Reply): (Main, seq<Call>)
    requires Tidy(m) && m.phase.Idle?
  {
    if e.id !in m.records then (m, [])
    else
      var started := StartEvent(m, e);
      assert Tidy(started) by { ActTidy(m, StartAction(e)); }
      var (after, calls) :=
        if Listener(m.records[e.id], e).Some? then RunScript(started, reply.script) else (started, []);
      assert Tidy(after) by { ScriptKeeps(started, reply.script); }
      var (ended, more) := EndEvent(after, reply.handled);
      (ended, calls + more)
  }

  lemma EventKeeps(m: Main, e: Event, reply: Reply)
    requires Tidy(m) && m.phase.Idle?
    ensures Tidy(HandleEvent(m, e, reply).0) && HandleEvent(m, e, reply).0.phase.Idle?
    ensures Linear(m) ==> Linear(HandleEvent(m, e, reply).0)
    ensures HandleEvent(m, e, reply).0.nextJobId >= m.nextJobId
  {
    if e.id in m.records {
      var started := StartEvent(m, e);
      ActTidy(m, StartAction(e));
      ScriptKeeps(started, reply.script);
      var after := if Listener(m.records[e.id], e).Some? then RunScript(started, reply.script).0 else started;
      ActTidy(after, EndAction(reply.handled));
      if Linear(m) {
        ActLinear(m, StartAction(e));
        ActLinear(after, EndAction(reply.handled));
      }
      hide RunScript, Linear;
    }
  }

  /** The loop of OnGameFrame over a drained batch. */
  function HandleAll(m: Main, batch: seq<Event>, replies: seq<Reply>): (r: (Main, seq<Call>))
    requires Tidy(m) && m.phase.Idle? && |replies| == |batch|
    ensures Tidy(r.0) && r.0.phase.Idle?
  {
    if batch == [] then (m, [])
    else
      var (m1, calls) := HandleAll(m, batch[..|batch| - 1], replies[..|batch| - 1]);
      assert Tidy(HandleEvent(m1, batch[|batch| - 1], replies[|batch| - 1]).0)
          && HandleEvent(m1, batch[|batch| - 1], replies[|batch| - 1]).0.phase.Idle? by {
        EventKeeps(m1, batch[|batch| - 1], replies[|batch| - 1]);
      }
      var (m2, more) := HandleEvent(m1, batch[|batch| - 1], replies[|batch| - 1]);
      (m2, calls + more)
  }

  /** A whole frame keeps forwards linear, whatever the callbacks do. */
  lemma {:induction false} FrameKeepsForwardsLinear(m: Main, batch: seq<Event>, replies: seq<Reply>)
    requires Tidy(m) && m.phase.Idle? && |replies| == |batch| && Linear(m)
    ensures Linear(HandleAll(m, batch, replies).0)
  {
    if batch != [] {
      hide Linear, Tidy, HandleEvent;
      FrameKeepsForwardsLinear(m, batch[..|batch| - 1], replies[..|batch| - 1]);
      EventKeeps(HandleAll(m, batch[..|batch| - 1], replies[..|batch| - 1]).0,
                 batch[|batch| - 1], replies[|batch| - 1]);
    }
  }

  // ---------------------------------------------------------------- silence

  /** The job's record is gone for good, or only waits for its running callback to return. */
  predicate Silenced(m: Main, id: int) {
    id < m.nextJobId && (id in m.records ==> m.records[id].dropped)
  }

  predicate SilencedOrHit(m: Main, id: int, who: Who) {
    Silenced(m, id) || (id < m.nextJobId && id in m.records && Hit(m.records[id], who))
  }

  /** Sending a request touches no record there is. */
  lemma SendKeepsRecords(m: Main, handle: int, owner: int)
    requires Tidy(m)
    ensures var m' := Send(m, handle, owner).0;
            && m'.nextJobId >= m.nextJobId
            && forall id :: id < m.nextJobId ==>
                 (id in m'.records <==> id in m.records) && (id in m.records ==> m'.records[id] == m.records[id])
  {
  }

  /** Nor does any other call but a drop. */
  lemma OthersKeepRecords(m: Main, c: ApiCall)
    requires Tidy(m) && !c.CallDrop?
    ensures var m' := Perform(m, c).0;
            && m'.nextJobId >= m.nextJobId
            && forall id :: id < m.nextJobId ==>
                 (id in m'.records <==> id in m.records) && (id in m.records ==> m'.records[id] == m.records[id])
  {
    if c.CallSend? {
      SendKeepsRecords(m, c.handle, c.owner);
      hide Send, Tidy;
    }
    hide Tidy;
  }

  lemma PerformKeepsSilence(m: Main, c: ApiCall, id: int)
    requires Tidy(m) && Silenced(m, id)
    ensures Silenced(Perform(m, c).0, id)
  {
    if c.CallDrop? {
      DropReaches(m, c.who, c.order);
    } else {
      OthersKeepRecords(m, c);
    }
    hide Tidy, Perform, DropEach;
  }

  lemma PerformSilences(m: Main, c: ApiCall, id: int, who: Who)
    requires Tidy(m) && SilencedOrHit(m, id, who)
    ensures SilencedOrHit(Perform(m, c).0, id, who)
    ensures c.CallDrop? && c.who == who && id in c.order ==> Silenced(Perform(m, c).0, id)
  {
    if Silenced(m, id) {
      PerformKeepsSilence(m, c, id);
      hide Tidy, Perform, Silenced;
    } else if c.CallDrop? {
      DropSilences(m, c, id, who);
      hide Tidy, Perform, Hit;
    } else {
      OthersKeepRecords(m, c);
      hide Tidy, Perform, Hit;
    }
  }

  lemma DropSilences(m: Main, c: ApiCall, id: int, who: Who)
    requires Tidy(m) && c.CallDrop? && id < m.nextJobId && id in m.records && Hit(m.records[id], who)
    ensures SilencedOrHit(Perform(m, c).0, id, who)
    ensures c.who == who && id in c.order ==> Silenced(Perform(m, c).0, id)
  {
    hide Tidy, DropEach;
    DropReaches(m, c.who, c.order);
  }

  /** The script holds a call that drops the client's or plugin's jobs, and its walk of the table
      comes past this one. */
  predicate Drops(script: seq<ApiCall>, id: int, who: Who) {
    exists c :: c in script && c.CallDrop? && c.who == who && id in c.order
  }

  /** Once one call of the script drops the job, the rest of the script cannot bring it back. */
  lemma {:induction false} ScriptSilences(m: Main, script: seq<ApiCall>, id: int, who: Who)
    requires Tidy(m) && SilencedOrHit(m, id, who)
    ensures SilencedOrHit(RunScript(m, script).0, id, who)
    ensures Silenced(m, id) || Drops(script, id, who) ==> Silenced(RunScript(m, script).0, id)
  {
    if script != [] {
      var init := script[..|script| - 1];
      var last := script[|script| - 1];
      assert script == init + [last];
      hide Tidy, Silenced, SilencedOrHit, Perform;
      ScriptSilences(m, init, id, who);
      ScriptKeeps(m, init);
      PerformSilences(RunScript(m, init).0, last, id, who);
      if Silenced(RunScript(m, init).0, id) {
        PerformKeepsSilence(RunScript(m, init).0, last, id);
      } else {
        assert Drops(script, id, who) ==> last.CallDrop? && last.who == who && id in last.order;
      }
    }
  }

  /** The events of `id` in a batch for which a record was found, so a callback could begin. */
  function Heard(m: Main, batch: seq<Event>, replies: seq<Reply>, id: int): seq<Event>
    requires Tidy(m) && m.phase.Idle? && |replies| == |batch|
  {
    if batch == [] then []
    else
      var n := |batch| - 1;
      Heard(m, batch[..n], replies[..n], id)
      + (if batch[n].id == id && id in HandleAll(m, batch[..n], replies[..n]).0.records then [batch[n]] else [])
  }

  lemma EventKeepsAbsent(m: Main, e: Event, reply: Reply, id: int)
    requires Tidy(m) && m.phase.Idle? && id !in m.records && id < m.nextJobId
    ensures id !in HandleEvent(m, e, reply).0.records
  {
    if e.id in m.records {
      var started := StartEvent(m, e);
      ActTidy(m, StartAction(e));
      ScriptSilences(started, reply.script, id, OfClient(0));
      ScriptKeeps(started, reply.script);
      hide RunScript;
    }
  }

  /** A job without a record is never heard of again, in this frame or any later one. */
  lemma {:induction false} GoneIsSilent(m: Main, batch: seq<Event>, replies: seq<Reply>, id: int)
    requires Tidy(m) && m.phase.Idle? && |replies| == |batch| && id !in m.records && id < m.nextJobId
    ensures Heard(m, batch, replies, id) == []
    ensures id !in HandleAll(m, batch, replies).0.records && id < HandleAll(m, batch, replies).0.nextJobId
  {
    if batch != [] {
      hide Tidy, HandleEvent;
      var n := |batch| - 1;
      GoneIsSilent(m, batch[..n], replies[..n], id);
      var m1 := HandleAll(m, batch[..n], replies[..n]).0;
      EventKeepsAbsent(m1, batch[n], replies[n], id);
      EventKeeps(m1, batch[n], replies[n]);
    }
  }

  /** A callback, its own or another's, that deletes the job's client or unloads its plugin ends the
      job's callbacks at once: nothing after this event, in the same batch, is heard. */
  lemma DropInsideCallbackSilences(m: Main, e: Event, reply: Reply, rest: seq<Event>, replies: seq<Reply>, id: int,
      who: Who)
    requires Tidy(m) && m.phase.Idle? && |replies| == |rest|
    requires id in m.records && Hit(m.records[id], who)
    requires e.id in m.records && Listener(m.records[e.id], e).Some? && Drops(reply.script, id, who)
    ensures var m' := HandleEvent(m, e, reply).0;
            && Tidy(m') && m'.phase.Idle? && id !in m'.records
            && Heard(m', rest, replies, id) == []
  {
    EventKeeps(m, e, reply);
    var started := StartEvent(m, e);
    ActTidy(m, StartAction(e));
    ScriptSilences(started, reply.script, id, who);
    ScriptKeeps(started, reply.script);
    var m' := HandleEvent(m, e, reply).0;
    assert id !in m'.records by {
      hide RunScript;
    }
    hide HandleEvent, Tidy;
    GoneIsSilent(m', rest, replies, id);
  }
}
