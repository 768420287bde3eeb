/** The extension's main-thread state, as functions on its fields (src/extension.cpp, src/natives.cpp).

    Forwards (plugin callbacks) are abstract ids handed out in order; `released` records every
    ReleaseForward call. A function that talks to the worker also returns the calls it makes. */
module MainThread {
  import opened Maybe
  import opened Events

  type Forward = nat

  datatype Request = Request(
    spec: RequestSpec,
    client: int,
    headers: Option<Forward>,
    data: Option<Forward>,
    progress: Option<Forward>)

  datatype Record = Record(
    id: int,
    client: int,
    owner: int,
    completed: Option<Forward>,
    headers: Option<Forward>,
    data: Option<Forward>,
    progress: Option<Forward>,
    dispatching: bool,
    dropped: bool)

  /** What HandleEvent is doing while a plugin callback runs. */
  datatype Phase = Idle | Dispatching(event: Event) | Completing(record: Record, event: Event)

  datatype Main = Main(
    nextJobId: int,
    nextForward: nat,
    nextHandle: int,
    requests: map<int, Request>,
    records: map<int, Record>,
    phase: Phase,
    released: multiset<Forward>)

  /** Calls into TransferThread. */
  datatype Call = Enqueue(spec: RequestSpec) | CancelCall(id: int) | ConsumeCall(id: int, bytes: int)

  datatype Which = HeadersSlot | DataSlot | ProgressSlot

  const LOADED := Main(1, 0, 1, map[], map[], Idle, multiset{})

  // ---------------------------------------------------------------- who holds which forward

  function OfSlot(slot: Option<Forward>): multiset<Forward> {
    if slot.Some? then multiset{slot.value} else multiset{}
  }

  function OfRequest(r: Request): multiset<Forward> {
    OfSlot(r.headers) + OfSlot(r.data) + OfSlot(r.progress)
  }

  function OfRecord(r: Record): multiset<Forward> {
    OfSlot(r.completed) + OfSlot(r.headers) + OfSlot(r.data) + OfSlot(r.progress)
  }

  /** How many of the holder's slots hold `f`. */
  function InSlot(slot: Option<Forward>, f: Forward): nat {
    if slot == Some(f) then 1 else 0
  }

  function InRequest(r: Request, f: Forward): nat {
    InSlot(r.headers, f) + InSlot(r.data, f) + InSlot(r.progress, f)
  }

  function InRecord(r: Record, f: Forward): nat {
    InSlot(r.completed, f) + InSlot(r.headers, f) + InSlot(r.data, f) + InSlot(r.progress, f)
  }

  function InPhase(p: Phase, f: Forward): nat {
    if p.Completing? then InRecord(p.record, f) else 0
  }

  ghost function Total<T>(m: map<int, T>, count: (T, Forward) -> nat, f: Forward): nat {
    if exists k :: k in m then
      var k :| k in m;
      count(m[k], f) + Total(m - {k}, count, f)
    else 0
  }

  /** The number of places that hold `f`: requests, records, and the copy a completion works on. */
  ghost function Holders(m: Main, f: Forward): nat {
    Total(m.requests, InRequest, f) + Total(m.records, InRecord, f) + InPhase(m.phase, f)
  }

  /** A forward that was created is held in one place and not released, or was released once. */
  ghost predicate LinearAt(m: Main, f: Forward) {
    Holders(m, f) + m.released[f] == if f < m.nextForward then 1 else 0
  }

  ghost predicate Linear(m: Main) {
    forall f: Forward :: LinearAt(m, f)
  }

  // ---------------------------------------------------------------- the natives

  /** RESTClient.Request. */
  function NewRequest(m: Main, client: int, spec: RequestSpec): Main {
    m.(requests := m.requests[m.nextHandle := Request(spec, client, None, None, None)], nextHandle := m.nextHandle + 1)
  }

  /** RESTRequest.OnHeaders, OnData and OnProgress: the old forward is released, the new one kept. */
  function SetCallback(m: Main, handle: int, which: Which): Main {
    if handle !in m.requests then m
    else
      var r := m.requests[handle];
      var fwd := Some(m.nextForward);
      var previous := match which case HeadersSlot => r.headers case DataSlot => r.data case ProgressSlot => r.progress;
      var r' := match which
        case HeadersSlot => r.(headers := fwd, spec := r.spec.(wantHeaders := true))
        case DataSlot => r.(data := fwd, spec := r.spec.(streamData := true))
        case ProgressSlot => r.(progress := fwd);
      m.(requests := m.requests[handle := r'], nextForward := m.nextForward + 1, released := m.released
          + OfSlot(previous))
  }

  /** OnHandleDestroy for a request. */
  function FreeRequest(m: Main, handle: int): Main {
    if handle !in m.requests then m
    else m.(requests := m.requests - {handle}, released := m.released + OfRequest(m.requests[handle]))
  }

  /** RESTRequest.Send with SubmitJob: the three forwards move from the request to the record. */
  function Send(m: Main, handle: int, owner: int): (Main, seq<Call>) {
    if handle !in m.requests then (m, [])
    else
      var r := m.requests[handle];
      var id := m.nextJobId;
      var record := Record(id, r.client, owner, Some(m.nextForward), r.headers, r.data, r.progress, false, false);
      (m.(requests := m.requests - {handle}, nextForward := m.nextForward + 1,
          nextJobId := id + 1, records := m.records[id := record]),
       [Enqueue(r.spec.(id := id))])
  }

  /** RESTClient.Cancel: only the plugin that sent the request can cancel it. */
  function CancelJob(m: Main, id: int, requester: int): seq<Call> {
    if id in m.records && m.records[id].owner == requester then [CancelCall(id)] else []
  }

  function DropJob(m: Main, id: int): (Main, seq<Call>)
    requires id in m.records
  {
    var r := m.records[id];
    (if r.dispatching then m.(records := m.records[id := r.(dropped := true)])
     else m.(records := m.records - {id}, released := m.released + OfRecord(r)),
     [CancelCall(id)])
  }

  // ---------------------------------------------------------------- HandleEvent

  /** Up to the point where the plugin callback runs. */
  function StartEvent(m: Main, e: Event): Main {
    if e.id !in m.records then m
    else if e.Complete? then m.(records := m.records - {e.id}, phase := Completing(m.records[e.id], e))
    else m.(records := m.records[e.id := m.records[e.id].(dispatching := true)], phase := Dispatching(e))
  }

  /** From the callback's return on. `handled`: the headers callback answered Plugin_Handled or more. */
  function EndEvent(m: Main, handled: bool): (Main, seq<Call>)
    requires m.phase.Dispatching? ==> m.phase.event.id in m.records
  {
    match m.phase
    case Idle => (m, [])
    case Completing(record, _) => (m.(phase := Idle, released := m.released + OfRecord(record)), [])
    case Dispatching(e) =>
      var r := m.records[e.id];
      (if r.dropped then m.(phase := Idle, records := m.records - {e.id}, released := m.released + OfRecord(r))
       else m.(phase := Idle, records := m.records[e.id := r.(dispatching := false)]),
       match e
       case Data(id, body) => [ConsumeCall(id, |body|)]
       case Headers(id, _, _) => if r.headers.Some? && handled then [CancelCall(id)] else []
       case _ => [])
  }

  /** The record table agrees with the event being dispatched. */
  predicate Tidy(m: Main) {
    && (forall id :: id in m.records ==>
          && m.records[id].id == id && 0 < id < m.nextJobId
          && (m.records[id].dispatching <==> m.phase.Dispatching? && m.phase.event.id == id)
          && (m.records[id].dropped ==> m.records[id].dispatching))
    && (m.phase.Dispatching? ==> m.phase.event.id in m.records && !m.phase.event.Complete?)
    && (forall h :: h in m.requests ==> h < m.nextHandle)
    && 0 < m.nextJobId
  }

  // ---------------------------------------------------------------- unload

  /** SDK_OnUnload: every record gives its forwards back, then every request handle that is left. */
  ghost predicate Unloaded(m: Main, m': Main) {
    && m' == m.(records := map[], requests := map[], released := m'.released)
    && forall f: Forward ::
         m'.released[f] == m.released[f] + Total(m.records, InRecord, f) + Total(m.requests, InRequest, f)
  }

  // ---------------------------------------------------------------- sums over maps

  lemma {:induction false} TotalTakesOut<T>(m: map<int, T>, count: (T, Forward) -> nat, f: Forward, k: int)
    requires k in m
    ensures Total(m, count, f) == count(m[k], f) + Total(m - {k}, count, f)
    decreases |m|
  {
    var first :| first in m && Total(m, count, f) == count(m[first], f) + Total(m - {first}, count, f);
    if first != k {
      TotalTakesOut(m - {first}, count, f, k);
      TotalTakesOut(m - {k}, count, f, first);
      assert m - {first} - {k} == m - {k} - {first};
    }
  }

  lemma TotalPutsIn<T>(m: map<int, T>, count: (T, Forward) -> nat, f: Forward, k: int, v: T)
    ensures Total(m[k := v], count, f)
         == Total(m, count, f) + count(v, f) - (if k in m then count(m[k], f) else 0)
  {
    TotalTakesOut(m[k := v], count, f, k);
    assert m[k := v] - {k} == m - {k};
    if k in m {
      TotalTakesOut(m, count, f, k);
    } else {
      assert m - {k} == m;
    }
  }

  lemma CountOfSlot(slot: Option<Forward>, f: Forward)
    ensures OfSlot(slot)[f] == InSlot(slot, f)
  {
  }

  lemma CountOfRequest(r: Request, f: Forward)
    ensures OfRequest(r)[f] == InRequest(r, f)
  {
    hide OfSlot, InSlot;
    CountOfSlot(r.headers, f);
    CountOfSlot(r.data, f);
    CountOfSlot(r.progress, f);
  }

  lemma CountOfRecord(r: Record, f: Forward)
    ensures OfRecord(r)[f] == InRecord(r, f)
  {
    hide OfSlot, InSlot;
    CountOfSlot(r.completed, f);
    CountOfSlot(r.headers, f);
    CountOfSlot(r.data, f);
    CountOfSlot(r.progress, f);
  }

  // ---------------------------------------------------------------- every operation is linear

  lemma NewRequestLinear(m: Main, client: int, spec: RequestSpec, f: Forward)
    requires LinearAt(m, f) && Tidy(m)
    ensures LinearAt(NewRequest(m, client, spec), f)
  {
    TotalPutsIn(m.requests, InRequest, f, m.nextHandle, Request(spec, client, None, None, None));
  }

  lemma SetCallbackLinear(m: Main, handle: int, which: Which, f: Forward)
    requires LinearAt(m, f)
    ensures LinearAt(SetCallback(m, handle, which), f)
  {
    if handle in m.requests {
      TotalPutsIn(m.requests, InRequest, f, handle, SetCallback(m, handle, which).requests[handle]);
    }
  }

  lemma FreeRequestLinear(m: Main, handle: int, f: Forward)
    requires LinearAt(m, f)
    ensures LinearAt(FreeRequest(m, handle), f)
  {
    if handle in m.requests {
      TotalTakesOut(m.requests, InRequest, f, handle);
      CountOfRequest(m.requests[handle], f);
    }
  }

  lemma SendLinear(m: Main, handle: int, owner: int, f: Forward)
    requires LinearAt(m, f) && Tidy(m)
    ensures LinearAt(Send(m, handle, owner).0, f)
  {
    if handle in m.requests {
      TotalTakesOut(m.requests, InRequest, f, handle);
      TotalPutsIn(m.records, InRecord, f, m.nextJobId, Send(m, handle, owner).0.records[m.nextJobId]);
    }
  }

  lemma DropJobLinear(m: Main, id: int, f: Forward)
    requires LinearAt(m, f) && id in m.records
    ensures LinearAt(DropJob(m, id).0, f)
  {
    TotalPutsIn(m.records, InRecord, f, id, m.records[id].(dropped := true));
    TotalTakesOut(m.records, InRecord, f, id);
    CountOfRecord(m.records[id], f);
  }

  lemma StartEventLinear(m: Main, e: Event, f: Forward)
    requires LinearAt(m, f) && m.phase.Idle?
    ensures LinearAt(StartEvent(m, e), f)
  {
    if e.id in m.records {
      TotalPutsIn(m.records, InRecord, f, e.id, m.records[e.id].(dispatching := true));
      TotalTakesOut(m.records, InRecord, f, e.id);
    }
  }

  lemma EndEventLinear(m: Main, handled: bool, f: Forward)
    requires LinearAt(m, f) && Tidy(m)
    ensures LinearAt(EndEvent(m, handled).0, f)
  {
    if m.phase.Completing? {
      CountOfRecord(m.phase.record, f);
    }
    if m.phase.Dispatching? {
      var id := m.phase.event.id;
      TotalPutsIn(m.records, InRecord, f, id, m.records[id].(dispatching := false));
      TotalTakesOut(m.records, InRecord, f, id);
      CountOfRecord(m.records[id], f);
    }
  }

  /** After unload nothing is leaked and nothing was released twice. */
  lemma UnloadReleasesEverything(m: Main, m': Main, f: Forward)
    requires Linear(m) && m.phase.Idle? && Unloaded(m, m')
    ensures LinearAt(m', f) && Holders(m', f) == 0
    ensures m'.released[f] == if f < m.nextForward then 1 else 0
  {
    assert LinearAt(m, f);
  }

  // ---------------------------------------------------------------- whole runs

  /** One main-thread action: a native, the start of an event, or the end of one. Between a
      start and its end come the natives the plugin callback runs. */
  datatype Action =
    | NewRequestAction(client: int, spec: RequestSpec)
    | SetCallbackAction(handle: int, which: Which)
    | FreeRequestAction(handle: int)
    | SendAction(handle: int, owner: int)
    | DropAction(id: int)
    | StartAction(event: Event)
    | EndAction(handled: bool)

  predicate Allowed(m: Main, a: Action) {
    match a
    case DropAction(id) => id in m.records
    case StartAction(_) => m.phase.Idle?
    case EndAction(_) => m.phase.Dispatching? ==> m.phase.event.id in m.records
    case _ => true
  }

  function Act(m: Main, a: Action): Main
    requires Allowed(m, a)
  {
    match a
    case NewRequestAction(client, spec) => NewRequest(m, client, spec)
    case SetCallbackAction(handle, which) => SetCallback(m, handle, which)
    case FreeRequestAction(handle) => FreeRequest(m, handle)
    case SendAction(handle, owner) => Send(m, handle, owner).0
    case DropAction(id) => DropJob(m, id).0
    case StartAction(e) => StartEvent(m, e)
    case EndAction(handled) => EndEvent(m, handled).0
  }

  /** A run from the loaded extension: the actions taken and the states between them. */
  ghost predicate Run(states: seq<Main>, actions: seq<Action>) {
    && |states| == |actions| + 1 && states[0] == LOADED
    && forall i :: 0 <= i < |actions| ==> Allowed(states[i], actions[i]) && states[i + 1] == Act(states[i], actions[i])
  }

  lemma ActTidy(m: Main, a: Action)
    requires Tidy(m) && Allowed(m, a)
    ensures Tidy(Act(m, a))
  {
  }

  lemma ActLinear(m: Main, a: Action)
    requires Linear(m) && Tidy(m) && Allowed(m, a)
    ensures Linear(Act(m, a))
  {
    forall f: Forward ensures LinearAt(Act(m, a), f) {
      assert LinearAt(m, f);
      hide LinearAt, Tidy;
      match a
      case NewRequestAction(client, spec) => NewRequestLinear(m, client, spec, f);
      case SetCallbackAction(handle, which) => SetCallbackLinear(m, handle, which, f);
      case FreeRequestAction(handle) => FreeRequestLinear(m, handle, f);
      case SendAction(handle, owner) => SendLinear(m, handle, owner, f);
      case DropAction(id) => DropJobLinear(m, id, f);
      case StartAction(e) => StartEventLinear(m, e, f);
      case EndAction(handled) => EndEventLinear(m, handled, f);
    }
  }

  /** Over every run, whatever the callbacks do, each forward has exactly one holder until it is
      released, and is released at most once. */
  lemma {:induction false} ForwardsStayLinear(states: seq<Main>, actions: seq<Action>, i: nat)
    requires Run(states, actions) && i <= |actions|
    ensures Linear(states[i]) && Tidy(states[i])
  {
    if i > 0 {
      ForwardsStayLinear(states, actions, i - 1);
      ActLinear(states[i - 1], actions[i - 1]);
      ActTidy(states[i - 1], actions[i - 1]);
    }
  }
}
