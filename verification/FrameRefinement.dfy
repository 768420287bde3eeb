/** A frame of the main thread, with whatever its callbacks do, is a sequence of moves of the two-thread
    machine: drain, then for each event its start, the moves of its script, and its end
    (src/extension.cpp:21-34, 279-329). */
module FrameRefinement {
  import opened Maybe
  import opened Events
  import opened JobSpec
  import opened Live
  import opened MainThread
  import opened Callbacks
  import opened System
  import R = RestExtension
  import TurnRefinement

  // ---------------------------------------------------------------- what a sequence of moves reaches

  function Ids(specs: seq<RequestSpec>): set<int> {
    set i | 0 <= i < |specs| :: specs[i].id
  }

  /** The cancels and credits posted so far; no job has been handed over yet. */
  function MailOf(s: Sys): R.Mail {
    R.Mail([], s.cancels, s.credits)
  }

  /** The mailbox has received this mail: its cancels and credits are in the lists, and a new job waits for
      each spec. No other job came, and none that was there moved. */
  ghost predicate Received(s: Sys, s': Sys, mail: R.Mail, maxWrite: nat) {
    && s'.cancels == mail.cancels && s'.credits == mail.consumes
    && s'.jobs.Keys == s.jobs.Keys + Ids(mail.specs)
    && (forall i :: 0 <= i < |mail.specs| ==> Waiting(s', mail.specs[i], maxWrite))
    && (forall id :: id in s.jobs ==> Unmoved(s, s', id))
  }

  predicate Waiting(s: Sys, spec: RequestSpec, maxWrite: nat) {
    spec.id in s.jobs && s.jobs[spec.id].place == Mailbox && s.jobs[spec.id].live == Fresh(spec, maxWrite)
  }

  predicate Unmoved(s: Sys, s': Sys, id: int) {
    id in s.jobs && id in s'.jobs && s'.jobs[id].live == s.jobs[id].live && s'.jobs[id].place == s.jobs[id].place
  }

  /** The worker's side is untouched. */
  predicate Aside(s: Sys, s': Sys) {
    s'.pc == s.pc && s'.workCancels == s.workCancels && s'.workCredits == s.workCredits && s'.disk == s.disk
  }

  /** These moves lead from `s` to `s'`, whose tables are `m`, having made these calls to the worker. */
  ghost predicate Reaches(s: Sys, moves: seq<Move>, s': Sys, m: Main, calls: seq<Call>, maxWrite: nat) {
    && TurnRefinement.After(s, moves) == Some(s') && Inv(s') && s'.main == m
    && Received(s, s', R.DeliveredAll(MailOf(s), calls), maxWrite)
    && Aside(s, s')
  }

  lemma {:induction false} DeliveredApart(mail: R.Mail, calls: seq<Call>)
    ensures var alone := R.DeliveredAll(mail.(specs := []), calls);
            R.DeliveredAll(mail, calls) == alone.(specs := mail.specs + alone.specs)
  {
    if calls != [] {
      DeliveredApart(mail, calls[..|calls| - 1]);
    }
  }

  lemma ReceivedBoth(s: Sys, mid: Sys, s': Sys, first: R.Mail, second: R.Mail, maxWrite: nat)
    requires Received(s, mid, first, maxWrite) && Received(mid, s', second, maxWrite)
    ensures Received(s, s', second.(specs := first.specs + second.specs), maxWrite)
  {
    var specs := first.specs + second.specs;
    assert Ids(specs) == Ids(first.specs) + Ids(second.specs) by { IdsConcat(first.specs, second.specs); }
    hide Ids;
    forall i | 0 <= i < |specs| ensures Waiting(s', specs[i], maxWrite) {
      if i < |first.specs| {
        assert Waiting(mid, first.specs[i], maxWrite);
        assert Unmoved(mid, s', first.specs[i].id);
      } else {
        assert Waiting(s', second.specs[i - |first.specs|], maxWrite);
      }
    }
    forall id | id in s.jobs ensures Unmoved(s, s', id) {
      assert Unmoved(s, mid, id) && Unmoved(mid, s', id);
    }
  }

  lemma IdsConcat(a: seq<RequestSpec>, b: seq<RequestSpec>)
    ensures Ids(a + b) == Ids(a) + Ids(b)
  {
    forall id ensures id in Ids(a + b) <==> id in Ids(a) + Ids(b) {
      if id in Ids(a) {
        var i :| 0 <= i < |a| && a[i].id == id;
        assert (a + b)[i].id == id;
      }
      if id in Ids(b) {
        var i :| 0 <= i < |b| && b[i].id == id;
        assert (a + b)[|a| + i].id == id;
      }
    }
  }

  lemma ReachesBoth(s: Sys, a: seq<Move>, mid: Sys, m: Main, first: seq<Call>, b: seq<Move>, s': Sys, m': Main,
                    second: seq<Call>, maxWrite: nat)
    requires Reaches(s, a, mid, m, first, maxWrite) && Reaches(mid, b, s', m', second, maxWrite)
    ensures Reaches(s, a + b, s', m', first + second, maxWrite)
  {
    hide Inv, Received, R.DeliveredAll, TurnRefinement.After;
    TurnRefinement.AfterBoth(s, a, mid, b);
    var one := R.DeliveredAll(MailOf(s), first);
    var two := R.DeliveredAll(MailOf(mid), second);
    MailPosted(s, mid, one, maxWrite);
    R.DeliveredConcat(MailOf(s), first, second);
    DeliveredApart(one, second);
    ReceivedBoth(s, mid, s', one, two, maxWrite);
    MailPosted(mid, s', two, maxWrite);
  }

  lemma MailPosted(s: Sys, s': Sys, mail: R.Mail, maxWrite: nat)
    requires Received(s, s', mail, maxWrite)
    ensures s'.cancels == mail.cancels && s'.credits == mail.consumes
    ensures mail.(specs := []) == MailOf(s')
  {
  }

  lemma ReachesNothing(s: Sys, maxWrite: nat)
    requires Inv(s)
    ensures Reaches(s, [], s, s.main, [], maxWrite)
  {
    hide Inv;
    R.DeliveredNone(MailOf(s));
    assert Ids([]) == {};
  }

  /** One move that makes at most one call. */
  lemma ReachesByOne(s: Sys, a: Move, s': Sys, calls: seq<Call>, maxWrite: nat)
    requires Can(s, a) && s' == Next(s, a) && |calls| <= 1
    requires Received(s, s', if calls == [] then MailOf(s) else R.Delivered(MailOf(s), calls[0]), maxWrite)
        && Aside(s, s')
    requires Inv(s)
    ensures Reaches(s, [a], s', s'.main, calls, maxWrite)
  {
    hide Inv, Can, Next, Received, R.Delivered;
    assert TurnRefinement.After(s, []) == Some(s);
    TurnRefinement.AfterOneMore(s, [], s, a);
    assert [] + [a] == [a];
    NextKeeps(s, a);
    if calls == [] {
      R.DeliveredNone(MailOf(s));
    } else {
      assert calls == [calls[0]];
      R.DeliveredOne(MailOf(s), calls[0]);
    }
  }

  // ---------------------------------------------------------------- the API calls

  lemma NothingHandedOver()
    ensures Ids([]) == {}
  {
  }

  lemma NativeMove(s: Sys, a: Action, maxWrite: nat) returns (s': Sys)
    requires IsRequestAction(a)
    requires Inv(s)
    ensures Reaches(s, [Native(a)], s', Act(s.main, a), [], maxWrite) && s'.batch == s.batch && s'.queue == s.queue
  {
    hide Inv, Act;
    NothingHandedOver();
    s' := Next(s, Native(a));
    ReachesByOne(s, Native(a), s', [], maxWrite);
  }

  lemma CancelMove(s: Sys, id: int, requester: int, maxWrite: nat) returns (moves: seq<Move>, s': Sys)
    requires Inv(s)
    ensures Reaches(s, moves, s', s.main, CancelJob(s.main, id, requester), maxWrite)
    ensures s'.batch == s.batch && s'.queue == s.queue
  {
    hide Inv;
    NothingHandedOver();
    if CancelJob(s.main, id, requester) == [] {
      moves, s' := [], s;
      ReachesNothing(s, maxWrite);
    } else {
      moves, s' := [CancelRequest(id, requester)], DoCancelRequest(s, id, requester);
      ReachesByOne(s, CancelRequest(id, requester), s', CancelJob(s.main, id, requester), maxWrite);
    }
  }

  lemma DropMove(s: Sys, who: Who, id: int, maxWrite: nat) returns (moves: seq<Move>, s': Sys)
    requires Inv(s)
    ensures Reaches(s, moves, s', DropOne(s.main, who, id).0, DropOne(s.main, who, id).1, maxWrite)
    ensures s'.batch == s.batch && s'.queue == s.queue
  {
    hide Inv, DropJob, Received, DoDrop, Reaches, Hit;
    if id in s.main.records && Hit(s.main.records[id], who) {
      KnownRecord(s, id);
      moves, s' := [Drop(id)], DoDrop(s, id);
      DropEffect(s, id, maxWrite);
      ReachesByOne(s, Drop(id), s', DropJob(s.main, id).1, maxWrite);
    } else {
      moves, s' := [], s;
      ReachesNothing(s, maxWrite);
    }
  }

  lemma DropEffect(s: Sys, id: int, maxWrite: nat)
    requires CanDrop(s, id)
    ensures var s' := DoDrop(s, id);
            && DropJob(s.main, id).1 == [CancelCall(id)] && s'.main == DropJob(s.main, id).0
            && Received(s, s', R.Delivered(MailOf(s), CancelCall(id)), maxWrite)
            && Aside(s, s') && s'.batch == s.batch && s'.queue == s.queue
  {
    hide OfRecord;
    NothingHandedOver();
  }

  lemma KnownRecord(s: Sys, id: int)
    requires Inv(s) && id in s.main.records
    ensures CanDrop(s, id)
  {
    hide SliceOk, SliceOf, Tidy;
  }

  lemma SendMove(s: Sys, handle: int, owner: int, maxWrite: nat) returns (moves: seq<Move>, s': Sys)
    requires Inv(s)
    ensures Reaches(s, moves, s', MainThread.Send(s.main, handle, owner).0, MainThread.Send(s.main, handle,
        owner).1, maxWrite)
    ensures s'.batch == s.batch && s'.queue == s.queue
  {
    hide Inv, Received, DoSend, Reaches, MainThread.Send;
    SendCalls(s.main, handle, owner);
    if handle in s.main.requests {
      NextIdIsNew(s);
      moves, s' := [System.Send(handle, owner, maxWrite)], DoSend(s, handle, owner, maxWrite);
      SendEffect(s, handle, owner, maxWrite);
      ReachesByOne(s, moves[0], s', MainThread.Send(s.main, handle, owner).1, maxWrite);
    } else {
      moves, s' := [], s;
      ReachesNothing(s, maxWrite);
    }
  }

  lemma SendCalls(m: Main, handle: int, owner: int)
    ensures MainThread.Send(m, handle, owner).1
         == if handle in m.requests then [Enqueue(m.requests[handle].spec.(id := m.nextJobId))] else []
    ensures handle !in m.requests ==> MainThread.Send(m, handle, owner).0 == m
  {
  }

  lemma SendEffect(s: Sys, handle: int, owner: int, maxWrite: nat)
    requires handle in s.main.requests && s.main.nextJobId !in s.jobs
    ensures var s' := DoSend(s, handle, owner, maxWrite);
            && s'.main == MainThread.Send(s.main, handle, owner).0
            && Received(s, s', R.Delivered(MailOf(s), MainThread.Send(s.main, handle, owner).1[0]), maxWrite)
            && Aside(s, s') && s'.batch == s.batch && s'.queue == s.queue
  {
    hide Fresh, Ids;
    var spec := s.main.requests[handle].spec.(id := s.main.nextJobId);
    OneHandedOver(spec);
    var s' := DoSend(s, handle, owner, maxWrite);
    assert s'.jobs.Keys == s.jobs.Keys + {spec.id};
  }

  lemma NextIdIsNew(s: Sys)
    requires Inv(s)
    ensures s.main.nextJobId !in s.jobs
  {
    hide SliceOk, SliceOf, Tidy;
  }

  lemma OneHandedOver(spec: RequestSpec)
    ensures Ids([spec]) == {spec.id} && [] + [spec] == [spec]
  {
    assert [spec][0].id in Ids([spec]);
  }

  lemma {:induction false} DropMoves(s: Sys, who: Who, order: seq<int>, maxWrite: nat)
      returns (moves: seq<Move>, s': Sys)
    requires Inv(s)
    ensures Reaches(s, moves, s', DropEach(s.main, who, order).0, DropEach(s.main, who, order).1, maxWrite)
    ensures s'.batch == s.batch && s'.queue == s.queue
  {
    hide Inv, DropOne;
    if order == [] {
      moves, s' := [], s;
      ReachesNothing(s, maxWrite);
    } else {
      var init, last := order[..|order| - 1], order[|order| - 1];
      var first, mid := DropMoves(s, who, init, maxWrite);
      var rest;
      rest, s' := DropMove(mid, who, last, maxWrite);
      moves := first + rest;
      ReachesBoth(s, first, mid, DropEach(s.main, who, init).0, DropEach(s.main, who, init).1,
                  rest, s', DropOne(mid.main, who, last).0, DropOne(mid.main, who, last).1, maxWrite);
      hide Reaches;
    }
  }

  lemma {:induction false} CancelMoves(s: Sys, client: int, requester: int, order: seq<int>, maxWrite: nat)
    returns (moves: seq<Move>, s': Sys)
    requires Inv(s)
    ensures Reaches(s, moves, s', s.main, CancelEach(s.main, client, requester, order), maxWrite)
    ensures s'.batch == s.batch && s'.queue == s.queue
  {
    hide Inv;
    if order == [] {
      moves, s' := [], s;
      ReachesNothing(s, maxWrite);
    } else {
      var init, id := order[..|order| - 1], order[|order| - 1];
      moves, s' := CancelMoves(s, client, requester, init, maxWrite);
      var calls := CancelEach(s.main, client, requester, init);
      if id in s.main.records && s.main.records[id].client == client && s.main.records[id].owner == requester {
        var mid, rest := s', [];
        rest, s' := CancelMove(mid, id, requester, maxWrite);
        ReachesBoth(s, moves, mid, s.main, calls, rest, s', s.main, [CancelCall(id)], maxWrite);
        moves := moves + rest;
      } else {
        assert calls + [] == calls;
      }
      hide Reaches;
    }
  }

  /** One API call made by a plugin. */
  lemma PerformMoves(s: Sys, c: ApiCall, maxWrite: nat) returns (moves: seq<Move>, s': Sys)
    requires Inv(s)
    ensures Reaches(s, moves, s', Perform(s.main, c).0, Perform(s.main, c).1, maxWrite)
    ensures s'.batch == s.batch && s'.queue == s.queue
  {
    hide Inv, Reaches, DropEach, CancelEach, CancelJob, MainThread.Send, NewRequest, SetCallback, FreeRequest;
    match c {
      case CallNewRequest(client, spec) =>
        moves := [Native(NewRequestAction(client, spec))];
        s' := NativeMove(s, NewRequestAction(client, spec), maxWrite);
      case CallSetCallback(handle, which) =>
        moves := [Native(SetCallbackAction(handle, which))];
        s' := NativeMove(s, SetCallbackAction(handle, which), maxWrite);
      case CallFree(handle) =>
        moves := [Native(FreeRequestAction(handle))];
        s' := NativeMove(s, FreeRequestAction(handle), maxWrite);
      case CallSend(handle, owner, accepted) =>
        if accepted {
          moves, s' := SendMove(s, handle, owner, maxWrite);
        } else {
          moves, s' := [], s;
          ReachesNothing(s, maxWrite);
        }
      case CallCancel(id, requester) => moves, s' := CancelMove(s, id, requester, maxWrite);
      case CallCancelAll(client, requester, order) => moves, s' := CancelMoves(s, client, requester, order, maxWrite);
      case CallDrop(who, order) => moves, s' := DropMoves(s, who, order, maxWrite);
    }
  }

  /** A whole callback. */
  lemma {:induction false} ScriptMoves(s: Sys, script: seq<ApiCall>, maxWrite: nat) returns (moves: seq<Move>, s': Sys)
    requires Inv(s)
    ensures Reaches(s, moves, s', RunScript(s.main, script).0, RunScript(s.main, script).1, maxWrite)
    ensures s'.batch == s.batch && s'.queue == s.queue
  {
    hide Inv, Perform;
    if script == [] {
      moves, s' := [], s;
      ReachesNothing(s, maxWrite);
    } else {
      var init, last := script[..|script| - 1], script[|script| - 1];
      var first, mid := ScriptMoves(s, init, maxWrite);
      var rest;
      rest, s' := PerformMoves(mid, last, maxWrite);
      moves := first + rest;
      ReachesBoth(s, first, mid, RunScript(s.main, init).0, RunScript(s.main, init).1,
                  rest, s', Perform(mid.main, last).0, Perform(mid.main, last).1, maxWrite);
      hide Reaches;
    }
  }

  // ---------------------------------------------------------------- events

  lemma StartMove(s: Sys, maxWrite: nat) returns (s': Sys)
    requires s.main.phase.Idle? && s.batch != []
    requires Inv(s)
    ensures Reaches(s, [StartNext], s', StartEvent(s.main, s.batch[0]), [], maxWrite)
    ensures s'.batch == s.batch[1..] && s'.queue == s.queue
  {
    hide Inv, Received, DoStartNext, Reaches, CanStartNext;
    KnownEvent(s);
    s' := DoStartNext(s);
    StartEffect(s, maxWrite);
    ReachesByOne(s, StartNext, s', [], maxWrite);
  }

  lemma StartEffect(s: Sys, maxWrite: nat)
    requires CanStartNext(s)
    ensures var s' := DoStartNext(s);
            && s'.main == StartEvent(s.main, s.batch[0]) && Received(s, s', MailOf(s), maxWrite)
            && Aside(s, s') && s'.batch == s.batch[1..] && s'.queue == s.queue
  {
    hide StartEvent;
    NothingHandedOver();
    assert DoStartNext(s).jobs.Keys == s.jobs.Keys + {};
  }

  lemma KnownEvent(s: Sys)
    requires Inv(s) && s.main.phase.Idle? && s.batch != []
    ensures CanStartNext(s)
  {
    hide SliceOk, SliceOf, Tidy;
  }

  lemma EndMove(s: Sys, handled: bool, maxWrite: nat) returns (s': Sys)
    requires s.main.phase.Dispatching? ==> s.main.phase.event.id in s.main.records
    requires Inv(s)
    ensures Reaches(s, [EndCurrent(handled)], s', EndEvent(s.main, handled).0, EndEvent(s.main, handled).1, maxWrite)
    ensures s'.batch == s.batch && s'.queue == s.queue
  {
    hide Inv, Received, DoEndCurrent, Reaches, EndEvent, CanEndCurrent;
    KnownCallback(s);
    s' := DoEndCurrent(s, handled);
    EndEffect(s, handled, maxWrite);
    ReachesByOne(s, EndCurrent(handled), s', EndEvent(s.main, handled).1, maxWrite);
  }

  lemma EndEffect(s: Sys, handled: bool, maxWrite: nat)
    requires CanEndCurrent(s)
    ensures var (s', calls) := (DoEndCurrent(s, handled), EndEvent(s.main, handled).1);
            && |calls| <= 1 && s'.main == EndEvent(s.main, handled).0
            && Received(s, s', if calls == [] then MailOf(s) else R.Delivered(MailOf(s), calls[0]), maxWrite)
            && Aside(s, s') && s'.batch == s.batch && s'.queue == s.queue
  {
    hide EndEvent, Ids;
    NothingHandedOver();
    EndedEvent(s.main, handled);
    assert DoEndCurrent(s, handled).jobs.Keys == s.jobs.Keys + {};
  }

  lemma KnownCallback(s: Sys)
    requires Inv(s)
    ensures CanEndCurrent(s)
  {
    hide SliceOk, SliceOf;
  }

  /** One event with its callback: its start, the script, its end. */
  lemma EventMoves(s: Sys, reply: Reply, maxWrite: nat) returns (moves: seq<Move>, s': Sys)
    requires Tidy(s.main) && s.main.phase.Idle? && s.batch != []
    requires Inv(s)
    ensures Reaches(s, moves, s', HandleEvent(s.main, s.batch[0], reply).0, HandleEvent(s.main, s.batch[0],
        reply).1, maxWrite)
    ensures s'.batch == s.batch[1..] && s'.queue == s.queue
  {
    hide Inv, StartEvent, EndEvent, RunScript;
    var e := s.batch[0];
    var s1 := StartMove(s, maxWrite);
    if e.id !in s.main.records {
      moves, s' := [StartNext], s1;
      NoRecordNoStart(s.main, e);
    } else {
      var more, s2 := [], s1;
      var calls := [];
      if Listener(s.main.records[e.id], e).Some? {
        more, s2 := ScriptMoves(s1, reply.script, maxWrite);
        calls := RunScript(s1.main, reply.script).1;
      } else {
        ReachesNothing(s1, maxWrite);
      }
      ReachesBoth(s, [StartNext], s1, s1.main, [], more, s2, s2.main, calls, maxWrite);
      assert [] + calls == calls;
      DispatchedRecord(s2);
      s' := EndMove(s2, reply.handled, maxWrite);
      moves := [StartNext] + more + [EndCurrent(reply.handled)];
      ReachesBoth(s, [StartNext] + more, s2, s2.main, calls, [EndCurrent(reply.handled)], s', s'.main,
                  EndEvent(s2.main, reply.handled).1, maxWrite);
      hide Reaches;
    }
  }

  lemma NoRecordNoStart(m: Main, e: Event)
    requires e.id !in m.records
    ensures StartEvent(m, e) == m
  {
  }

  lemma DispatchedRecord(s: Sys)
    requires Inv(s)
    ensures s.main.phase.Dispatching? ==> s.main.phase.event.id in s.main.records
  {
    hide SliceOk, SliceOf;
  }

  /** The events of a drained batch, one after the other. */
  lemma {:induction false} BatchMoves(s: Sys, batch: seq<Event>, replies: seq<Reply>, maxWrite: nat)
    returns (moves: seq<Move>, s': Sys)
    requires Tidy(s.main) && s.main.phase.Idle? && |replies| == |batch| && batch <= s.batch
    requires Inv(s)
    ensures Reaches(s, moves, s', HandleAll(s.main, batch, replies).0, HandleAll(s.main, batch, replies).1, maxWrite)
    ensures s'.batch == s.batch[|batch|..] && s'.queue == s.queue
  {
    hide Inv, HandleEvent, Tidy;
    if batch == [] {
      moves, s' := [], s;
      ReachesNothing(s, maxWrite);
    } else {
      var n := |batch| - 1;
      var first, mid := BatchMoves(s, batch[..n], replies[..n], maxWrite);
      assert mid.batch[0] == batch[n] && mid.batch[1..] == s.batch[n + 1..];
      var rest;
      rest, s' := EventMoves(mid, replies[n], maxWrite);
      moves := first + rest;
      ReachesBoth(s, first, mid, mid.main, HandleAll(s.main, batch[..n], replies[..n]).1,
                  rest, s', s'.main, HandleEvent(mid.main, batch[n], replies[n]).1, maxWrite);
      hide Reaches;
    }
  }

  /** OnGameFrame: whatever its callbacks do, a frame is Drain and the moves of its events. The tables, the
      cancels, the credits and the new jobs it leaves are those the Extension object computes. */
  lemma FrameIsMoves(s: Sys, replies: seq<Reply>, maxWrite: nat) returns (moves: seq<Move>, s': Sys)
    requires Tidy(s.main) && CanDrain(s) && |replies| == |s.queue|
    requires Inv(s)
    ensures Reaches(s, moves, s', HandleAll(s.main, s.queue, replies).0, HandleAll(s.main, s.queue, replies).1,
        maxWrite)
    ensures s'.batch == [] && s'.queue == []
  {
    hide Inv, HandleAll, Tidy;
    NothingHandedOver();
    var drained := DoDrain(s);
    ReachesByOne(s, Drain, drained, [], maxWrite);
    var more;
    more, s' := BatchMoves(drained, s.queue, replies, maxWrite);
    moves := [Drain] + more;
    ReachesBoth(s, [Drain], drained, s.main, [], more, s', s'.main, HandleAll(s.main, s.queue, replies).1, maxWrite);
    assert [] + HandleAll(s.main, s.queue, replies).1 == HandleAll(s.main, s.queue, replies).1;
    hide Reaches;
  }
}
