/**
 * The per-test event store of src/index.js: one shared `events` object with
 * four containers (log entries by source, console messages by level, and
 * network requests and responses by request id), filled by four ingestion
 * callbacks and emptied between tests by `clearEvents`.
 *
 * The pure part (`Store` and the step functions) says what each callback does
 * to the containers; the class `Events` is the shared object itself, whose
 * methods update its fields in place and are proved against the step
 * functions. A ghost `Window` records every event delivered since the last
 * reset, and the store is always the replay of that window.
 */
module EventStore {
  import opened Wrappers

  /** The console levels whose messages are kept (src/index.js:4). */
  const AllowableConsoleLevels: seq<string> := ["warning", "error"]

  /** HTTP headers, as the protocol delivers them: name to value. */
  type Headers = map<string, string>

  /** A console argument, reduced to its serialised protocol value. */
  type RemoteObject = string

  /** A log record `{source, level, text, timestamp, url}`; `url` may be undefined. */
  datatype Entry = Entry(source: string, level: string, text: string, timestamp: real, url: Option<string>)

  /** A console record `{args, timestamp}`. */
  datatype ConsoleMessage = ConsoleMessage(args: seq<RemoteObject>, timestamp: real)

  /** A request record `{url, method, headers, timestamp}`. */
  datatype RequestRecord = RequestRecord(url: string, httpMethod: string, headers: Headers, timestamp: real)

  /** A response record `{url, status, headers, mimeType, sendTime, timestamp}`. */
  datatype ResponseRecord = ResponseRecord(url: string, status: int, headers: Headers, mimeType: string,
                                           sendTime: real, timestamp: real)

  /** `events.network`: requests and responses, each keyed by request id. */
  datatype Network = Network(request: map<string, RequestRecord>, response: map<string, ResponseRecord>)

  /** The value of the whole `events` object. */
  datatype Store = Store(entry: map<string, seq<Entry>>, console: map<string, seq<ConsoleMessage>>, network: Network)

  /** The request part of a `requestWillBeSent` payload. */
  datatype Request = Request(url: string, httpMethod: string, headers: Headers)

  /** The send phase of a response's resource timing. */
  datatype ResourceTiming = ResourceTiming(sendStart: real, sendEnd: real)

  /** The response part of a `responseReceived` payload; `timing` may be absent. */
  datatype Response = Response(url: string, status: int, headers: Headers, mimeType: string,
                               timing: Option<ResourceTiming>)

  /**
   * One delivery from the debugging protocol, with the payload fields the
   * callbacks read. `level` is the console call's `type` property.
   */
  datatype Event =
    | EntryAdded(entry: Entry)
    | ConsoleApiCalled(level: string, args: seq<RemoteObject>, timestamp: real)
    | RequestWillBeSent(requestId: string, request: Request, timestamp: real)
    | ResponseReceived(requestId: string, response: Response, timestamp: real)

  /** The store right after `clearEvents`: four empty containers. */
  function Empty(): (s: Store)
    ensures s.entry == map[] && s.console == map[]
    ensures s.network.request == map[] && s.network.response == map[]
  {
    Store(map[], map[], Network(map[], map[]))
  }

  /** The list kept for a source, or the empty list when none was created yet. */
  function EntriesOf(s: Store, source: string): seq<Entry>
  {
    if source in s.entry then s.entry[source] else []
  }

  /** The list kept for a console level, or the empty list when none was created yet. */
  function ConsoleOf(s: Store, level: string): seq<ConsoleMessage>
  {
    if level in s.console then s.console[level] else []
  }

  /** Whether a console level is on the allow-list. */
  predicate IsAllowedConsoleLevel(level: string)
    ensures IsAllowedConsoleLevel(level) <==> level == "warning" || level == "error"
  {
    level in AllowableConsoleLevels
  }

  /** The effect of `logEntry`: append the record to the list of its source. */
  function AddEntry(s: Store, e: Entry): (r: Store)
    ensures r.console == s.console && r.network == s.network
    ensures r.entry.Keys == s.entry.Keys + {e.source}
    ensures EntriesOf(r, e.source) == EntriesOf(s, e.source) + [e]
    ensures forall src :: src != e.source ==> EntriesOf(r, src) == EntriesOf(s, src)
  {
    var list := if e.source in s.entry then s.entry[e.source] else [];
    s.(entry := s.entry[e.source := list + [e]])
  }

  /** The effect of `logConsole`: append `{args, timestamp}` to its level's list, if the level is allowed. */
  function AddConsole(s: Store, level: string, args: seq<RemoteObject>, timestamp: real): (r: Store)
    ensures !IsAllowedConsoleLevel(level) ==> r == s
    ensures IsAllowedConsoleLevel(level) ==>
              && r.entry == s.entry && r.network == s.network
              && r.console.Keys == s.console.Keys + {level}
              && ConsoleOf(r, level) == ConsoleOf(s, level) + [ConsoleMessage(args, timestamp)]
              && forall l :: l != level ==> ConsoleOf(r, l) == ConsoleOf(s, l)
  {
    if IsAllowedConsoleLevel(level) then
      var list := if level in s.console then s.console[level] else [];
      s.(console := s.console[level := list + [ConsoleMessage(args, timestamp)]])
    else
      s
  }

  /** The effect of `logRequest`: set the record for the id, replacing any earlier one. */
  function PutRequest(s: Store, requestId: string, request: Request, timestamp: real): (r: Store)
    ensures r.entry == s.entry && r.console == s.console && r.network.response == s.network.response
    ensures r.network.request.Keys == s.network.request.Keys + {requestId}
    ensures r.network.request[requestId] == RequestRecord(request.url, request.httpMethod, request.headers, timestamp)
    ensures forall id :: id in s.network.request && id != requestId ==>
              r.network.request[id] == s.network.request[id]
  {
    var record := RequestRecord(request.url, request.httpMethod, request.headers, timestamp);
    s.(network := s.network.(request := s.network.request[requestId := record]))
  }

  /** The send time of a response: send end minus send start, or -1 when there is no timing. */
  function SendTime(timing: Option<ResourceTiming>): (t: real)
    ensures timing.None? ==> t == -1.0
    ensures timing.Some? ==> t == timing.value.sendEnd - timing.value.sendStart
  {
    match timing
    case Some(t) => t.sendEnd - t.sendStart
    case None => -1.0
  }

  /**
   * The effect of `logResponse`: set the record for the id, replacing any
   * earlier one, whether or not a request with that id was recorded.
   */
  function PutResponse(s: Store, requestId: string, response: Response, timestamp: real): (r: Store)
    ensures r.entry == s.entry && r.console == s.console && r.network.request == s.network.request
    ensures r.network.response.Keys == s.network.response.Keys + {requestId}
    ensures var rec := r.network.response[requestId];
              && rec.url == response.url && rec.status == response.status
              && rec.headers == response.headers && rec.mimeType == response.mimeType
              && rec.timestamp == timestamp
              && (response.timing.None? ==> rec.sendTime == -1.0)
              && (response.timing.Some? ==> rec.sendTime == response.timing.value.sendEnd - response.timing.value.sendStart)
    ensures forall id :: id in s.network.response && id != requestId ==>
              r.network.response[id] == s.network.response[id]
  {
    var record := ResponseRecord(response.url, response.status, response.headers, response.mimeType,
                                 SendTime(response.timing), timestamp);
    s.(network := s.network.(response := s.network.response[requestId := record]))
  }

  /** The effect of delivering one event to its callback. */
  function Step(s: Store, ev: Event): Store
  {
    match ev
    case EntryAdded(e) => AddEntry(s, e)
    case ConsoleApiCalled(level, args, timestamp) => AddConsole(s, level, args, timestamp)
    case RequestWillBeSent(id, request, timestamp) => PutRequest(s, id, request, timestamp)
    case ResponseReceived(id, response, timestamp) => PutResponse(s, id, response, timestamp)
  }

  /** The store after a reset followed by the given deliveries, in order. */
  function Replay(trace: seq<Event>): Store
  {
    if trace == [] then Empty() else Step(Replay(trace[..|trace| - 1]), trace[|trace| - 1])
  }

  /** The log records of the given source carried by a trace, in delivery order. */
  function EntriesIn(trace: seq<Event>, source: string): seq<Entry>
  {
    if trace == [] then []
    else
      var last := trace[|trace| - 1];
      EntriesIn(trace[..|trace| - 1], source) + if last.EntryAdded? && last.entry.source == source then [last.entry] else []
  }

  /** The console messages of the given level carried by a trace, in delivery order. */
  function ConsoleIn(trace: seq<Event>, level: string): seq<ConsoleMessage>
  {
    if trace == [] then []
    else
      var last := trace[|trace| - 1];
      ConsoleIn(trace[..|trace| - 1], level) +
        if last.ConsoleApiCalled? && last.level == level then [ConsoleMessage(last.args, last.timestamp)] else []
  }

  /** The request record of the last `requestWillBeSent` for the id in a trace, if any. */
  function LastRequest(trace: seq<Event>, requestId: string): Option<RequestRecord>
  {
    if trace == [] then None
    else
      var last := trace[|trace| - 1];
      if last.RequestWillBeSent? && last.requestId == requestId then
        Some(RequestRecord(last.request.url, last.request.httpMethod, last.request.headers, last.timestamp))
      else LastRequest(trace[..|trace| - 1], requestId)
  }

  /** The response record of the last `responseReceived` for the id in a trace, if any. */
  function LastResponse(trace: seq<Event>, requestId: string): Option<ResponseRecord>
  {
    if trace == [] then None
    else
      var last := trace[|trace| - 1];
      if last.ResponseReceived? && last.requestId == requestId then
        Some(ResponseRecord(last.response.url, last.response.status, last.response.headers,
                            last.response.mimeType, SendTime(last.response.timing), last.timestamp))
      else LastResponse(trace[..|trace| - 1], requestId)
  }

  /**
   * Since the last reset, the list kept for a source holds exactly the log
   * records of that source, one per delivery and in delivery order.
   */
  lemma {:induction false} ReplayEntries(trace: seq<Event>, source: string)
    ensures EntriesOf(Replay(trace), source) == EntriesIn(trace, source)
  {
    if trace != [] {
      ReplayEntries(trace[..|trace| - 1], source);
    }
  }

  /**
   * Since the last reset, the list kept for an allowed console level holds
   * exactly the messages of that level, in delivery order; a level off the
   * allow-list never gets a list at all.
   */
  lemma {:induction false} ReplayConsole(trace: seq<Event>, level: string)
    ensures IsAllowedConsoleLevel(level) ==> ConsoleOf(Replay(trace), level) == ConsoleIn(trace, level)
    ensures !IsAllowedConsoleLevel(level) ==> level !in Replay(trace).console
  {
    if trace != [] {
      ReplayConsole(trace[..|trace| - 1], level);
    }
  }

  /**
   * Since the last reset, the request kept for an id is the one of the last
   * `requestWillBeSent` with that id (last write wins), and there is none when
   * no such event was delivered; responses never add or remove requests.
   */
  lemma {:induction false} ReplayRequest(trace: seq<Event>, requestId: string)
    ensures Lookup(Replay(trace).network.request, requestId) == LastRequest(trace, requestId)
  {
    if trace != [] {
      ReplayRequest(trace[..|trace| - 1], requestId);
    }
  }

  /**
   * Since the last reset, the response kept for an id is the one of the last
   * `responseReceived` with that id, whether or not a request with that id was
   * delivered, and there is none when no such event was delivered.
   */
  lemma {:induction false} ReplayResponse(trace: seq<Event>, requestId: string)
    ensures Lookup(Replay(trace).network.response, requestId) == LastResponse(trace, requestId)
  {
    if trace != [] {
      ReplayResponse(trace[..|trace| - 1], requestId);
    }
  }

  /** The shared `events` object, updated in place by the callbacks. */
  class Events {
    var entry: map<string, seq<Entry>>
    var console: map<string, seq<ConsoleMessage>>
    var network: Network
    /** The deliveries since the last reset, oldest first. */
    ghost var Window: seq<Event>

    /** The current value of the object, as a report serialises it. */
    function Snapshot(): Store
      reads this
    {
      Store(entry, console, network)
    }

    /** The object holds exactly what the deliveries since the last reset put there. */
    ghost predicate Valid()
      reads this
    {
      Snapshot() == Replay(Window)
    }

    /** Since the last reset, the object's list for a source holds that source's log records, in delivery order. */
    lemma EntriesSinceClear(source: string)
      requires Valid()
      ensures EntriesOf(Snapshot(), source) == EntriesIn(Window, source)
    {
      ReplayEntries(Window, source);
    }

    /** Since the last reset, the object keeps an allowed level's messages in delivery order and no disallowed level at all. */
    lemma ConsoleSinceClear(level: string)
      requires Valid()
      ensures IsAllowedConsoleLevel(level) ==> ConsoleOf(Snapshot(), level) == ConsoleIn(Window, level)
      ensures !IsAllowedConsoleLevel(level) ==> level !in console
    {
      ReplayConsole(Window, level);
    }

    /** Since the last reset, the object's request for an id is the last one delivered for it, if any. */
    lemma RequestSinceClear(requestId: string)
      requires Valid()
      ensures Lookup(network.request, requestId) == LastRequest(Window, requestId)
    {
      ReplayRequest(Window, requestId);
    }

    /** Since the last reset, the object's response for an id is the last one delivered for it, if any. */
    lemma ResponseSinceClear(requestId: string)
      requires Valid()
      ensures Lookup(network.response, requestId) == LastResponse(Window, requestId)
    {
      ReplayResponse(Window, requestId);
    }

    /** `let events = {}; clearEvents(events)`: the object starts out reset. */
    constructor ()
      ensures Valid() && Window == []
      ensures Snapshot() == Empty()
    {
      entry := map[];
      console := map[];
      network := Network(map[], map[]);
      Window := [];
    }

    /** `clearEvents`: empty all four containers of this same object. */
    method Clear()
      modifies this
      ensures Valid() && Window == []
      ensures entry == map[] && console == map[]
      ensures network.request == map[] && network.response == map[]
    {
      entry := map[];
      console := map[];
      network := Network(map[], map[]);
      Window := [];
    }

    /** `logEntry`: append one record to the list of its source, creating the list if needed. */
    method LogEntry(e: Entry)
      requires Valid()
      modifies this
      ensures Valid() && Window == old(Window) + [EntryAdded(e)]
      ensures Snapshot() == AddEntry(old(Snapshot()), e)
    {
      if e.source !in entry {
        entry := entry[e.source := []];
      }
      entry := entry[e.source := entry[e.source] + [e]];
      Window := Window + [EntryAdded(e)];
      assert Window[..|Window| - 1] == old(Window);
    }

    /** `logConsole`: append `{args, timestamp}` to the level's list, only for an allowed level. */
    method LogConsole(level: string, args: seq<RemoteObject>, timestamp: real)
      requires Valid()
      modifies this
      ensures Valid() && Window == old(Window) + [ConsoleApiCalled(level, args, timestamp)]
      ensures Snapshot() == AddConsole(old(Snapshot()), level, args, timestamp)
      ensures !IsAllowedConsoleLevel(level) ==> entry == old(entry) && console == old(console) && network == old(network)
    {
      if level in AllowableConsoleLevels {
        if level !in console {
          console := console[level := []];
        }
        console := console[level := console[level] + [ConsoleMessage(args, timestamp)]];
      }
      Window := Window + [ConsoleApiCalled(level, args, timestamp)];
      assert Window[..|Window| - 1] == old(Window);
    }

    /** `logRequest`: set the request record for the id, overwriting any earlier one. */
    method LogRequest(requestId: string, request: Request, timestamp: real)
      requires Valid()
      modifies this
      ensures Valid() && Window == old(Window) + [RequestWillBeSent(requestId, request, timestamp)]
      ensures Snapshot() == PutRequest(old(Snapshot()), requestId, request, timestamp)
    {
      var record := RequestRecord(request.url, request.httpMethod, request.headers, timestamp);
      network := network.(request := network.request[requestId := record]);
      Window := Window + [RequestWillBeSent(requestId, request, timestamp)];
      assert Window[..|Window| - 1] == old(Window);
    }

    /** `logResponse`: set the response record for the id, with its derived send time. */
    method LogResponse(requestId: string, response: Response, timestamp: real)
      requires Valid()
      modifies this
      ensures Valid() && Window == old(Window) + [ResponseReceived(requestId, response, timestamp)]
      ensures Snapshot() == PutResponse(old(Snapshot()), requestId, response, timestamp)
    {
      var sendTime := SendTime(response.timing);
      var record := ResponseRecord(response.url, response.status, response.headers, response.mimeType, sendTime, timestamp);
      network := network.(response := network.response[requestId := record]);
      Window := Window + [ResponseReceived(requestId, response, timestamp)];
      assert Window[..|Window| - 1] == old(Window);
    }
  }
}
