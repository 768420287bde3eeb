/** The values the two threads exchange (src/main_thread_queue.h, src/request.h). */
module Events {
  import opened Text

  datatype RestStatus = Ok | HttpError | NetworkError | Timeout | IoError | TooLarge | Cancelled

  datatype Config = Config(
    maxRetries: int,
    maxBodySize: int,
    chunkSize: int,
    progressInterval: int,
    followRedirects: bool)

  datatype RequestSpec = RequestSpec(
    id: int,
    outputPath: string,
    resume: bool,
    streamData: bool,
    wantHeaders: bool,
    config: Config)

  datatype Event =
    | Progress(id: int, downloaded: int, downloadTotal: int, uploaded: int, uploadTotal: int)
    | Headers(id: int, httpStatus: int, headers: HeaderList)
    | Data(id: int, body: string)
    | Complete(id: int, status: RestStatus, httpStatus: int, headers: HeaderList, body: string, bodyLength: int)

  /** The stream bytes carried by a sequence of events, in order. */
  function DataOf(events: seq<Event>): string {
    if events == [] then ""
    else DataOf(events[..|events| - 1]) + BodyOf(events[|events| - 1])
  }

  function BodyOf(event: Event): string {
    if event.Data? then event.body else ""
  }

  predicate EndsOk(events: seq<Event>) {
    events != [] && events[|events| - 1].Complete? && events[|events| - 1].status == Ok
  }

  function CountData(events: seq<Event>): nat {
    if events == [] then 0
    else CountData(events[..|events| - 1]) + (if events[|events| - 1].Data? then 1 else 0)
  }

  function CountHeaders(events: seq<Event>): nat {
    if events == [] then 0
    else CountHeaders(events[..|events| - 1]) + (if events[|events| - 1].Headers? then 1 else 0)
  }

  lemma Snoc(events: seq<Event>, e: Event)
    ensures DataOf(events + [e]) == DataOf(events) + BodyOf(e)
    ensures CountData(events + [e]) == CountData(events) + (if e.Data? then 1 else 0)
    ensures CountHeaders(events + [e]) == CountHeaders(events) + (if e.Headers? then 1 else 0)
  {
    assert (events + [e])[..|events|] == events;
  }

  lemma {:induction false} DataOfConcat(a: seq<Event>, b: seq<Event>)
    ensures DataOf(a + b) == DataOf(a) + DataOf(b)
  {
    if b == [] {
      assert a + b == a;
    } else {
      var init, last := b[..|b| - 1], b[|b| - 1];
      DataOfConcat(a, init);
      assert (a + b)[..|a + b| - 1] == a + init;
      Associate(DataOf(a), DataOf(init), BodyOf(last));
      hide BodyOf;
    }
  }

  /** The events of one job, in order. */
  function Of(events: seq<Event>, id: int): seq<Event> {
    if events == [] then []
    else Of(events[..|events| - 1], id) + (if events[|events| - 1].id == id then [events[|events| - 1]] else [])
  }

  lemma {:induction false} OfConcat(a: seq<Event>, b: seq<Event>, id: int)
    ensures Of(a + b, id) == Of(a, id) + Of(b, id)
  {
    if b == [] {
      assert a + b == a;
    } else {
      var init := b[..|b| - 1];
      OfConcat(a, init, id);
      assert (a + b)[..|a + b| - 1] == a + init;
    }
  }

  lemma {:induction false} OfOwn(events: seq<Event>, id: int)
    requires forall e :: e in events ==> e.id == id
    ensures Of(events, id) == events
    ensures forall other :: other != id ==> Of(events, other) == []
  {
    if events != [] {
      OfOwn(events[..|events| - 1], id);
      assert events == events[..|events| - 1] + [events[|events| - 1]];
    }
  }

  /** A Data event's bytes are among the stream's. */
  lemma {:induction false} DataAtLeast(h: seq<Event>, i: nat)
    requires i < |h| && h[i].Data?
    ensures |DataOf(h)| >= |h[i].body|
  {
    if i < |h| - 1 {
      DataAtLeast(h[..|h| - 1], i);
    }
  }
}
