/** `RealTimeService`: the WebSocket that pushes seat, event and sale updates
    to the app. It keeps one socket and a reconnect counter; a close (or a
    socket that cannot be constructed) schedules a reconnect after
    `1000 * attempts` ms, at most five times in a row; an open resets the
    counter. Each pushed update evicts the affected entries from the API
    client's response cache.

    The socket's events (open, close, message) are delivered by the caller,
    the session token is an input, and a scheduled reconnect is returned as
    its delay rather than run. */
module RealTime {
  import opened Common
  import opened ApiClient

  const MaxReconnectAttempts := 5
  const ReconnectDelay := 1000

  datatype ReadyState = Connecting | Open | Closing | Closed

  datatype Socket = Socket(url: string, readyState: ReadyState)

  /** The service's fields: the current socket, if any, and the number of
      reconnects scheduled since the last successful open. */
  datatype ServiceState = ServiceState(ws: Option<Socket>, reconnectAttempts: nat)

  predicate Bounded(s: ServiceState)
  {
    s.reconnectAttempts <= MaxReconnectAttempts
  }

  /** A step's new state and the delay of the reconnect it scheduled, if any. */
  datatype Step = Step(state: ServiceState, reconnectIn: Option<nat>)

  function SocketUrl(token: string): string
  {
    "ws://localhost:8000/ws/events/?token=" + token
  }

  /** `attemptReconnect`: below the limit, count one more attempt and wait
      `reconnectDelay` times the new count; at the limit, do nothing. */
  function Reconnect(s: ServiceState): (r: Step)
    ensures Bounded(s) ==> Bounded(r.state)
    ensures r.state.ws == s.ws
    ensures r.reconnectIn.Some? <==> s.reconnectAttempts < MaxReconnectAttempts
    ensures r.reconnectIn.Some? ==> r.state.reconnectAttempts == s.reconnectAttempts + 1
                                    && r.reconnectIn.value == ReconnectDelay * r.state.reconnectAttempts
    ensures r.reconnectIn.None? ==> r.state == s
  {
    if s.reconnectAttempts < MaxReconnectAttempts then
      var n := s.reconnectAttempts + 1;
      Step(s.(reconnectAttempts := n), Some(ReconnectDelay * n))
    else Step(s, None)
  }

  /** `connect`: without a token nothing happens; otherwise a new socket is
      opened to the token's URL, or, when constructing it throws, a
      reconnect is attempted. */
  function ConnectStep(s: ServiceState, token: Option<string>, constructionThrows: bool): (r: Step)
    ensures Bounded(s) ==> Bounded(r.state)
    ensures (token.None? || token.value == "") ==> r == Step(s, None)
    ensures token.Some? && token.value != "" && !constructionThrows ==>
              r.state == s.(ws := Some(Socket(SocketUrl(token.value), Connecting))) && r.reconnectIn.None?
    ensures token.Some? && token.value != "" && constructionThrows ==> r == Reconnect(s)
  {
    if token.None? || token.value == "" then Step(s, None)
    else if constructionThrows then Reconnect(s)
    else Step(s.(ws := Some(Socket(SocketUrl(token.value), Connecting))), None)
  }

  /** The socket's `onopen`: it is open and the counter starts again. */
  function Opened(s: ServiceState): (r: ServiceState)
    ensures Bounded(r) && r.reconnectAttempts == 0
  {
    ServiceState(if s.ws.Some? then Some(s.ws.value.(readyState := Open)) else None, 0)
  }

  /** The socket's `onclose`: the socket is closed and a reconnect attempted. */
  function ClosedEvent(s: ServiceState): (r: Step)
    ensures Bounded(s) ==> Bounded(r.state)
    ensures r.state.ws.Some? <==> s.ws.Some?
    ensures s.ws.Some? ==> r.state.ws.value.url == s.ws.value.url && r.state.ws.value.readyState == Closed
    ensures forall message :: Send(r.state, message).None?
    ensures r.reconnectIn.Some? <==> s.reconnectAttempts < MaxReconnectAttempts
    ensures r.reconnectIn.Some? ==> r.state.reconnectAttempts == s.reconnectAttempts + 1
                                    && r.reconnectIn.value == ReconnectDelay * r.state.reconnectAttempts
    ensures r.reconnectIn.None? ==> r.state.reconnectAttempts == s.reconnectAttempts
  {
    Reconnect(s.(ws := if s.ws.Some? then Some(s.ws.value.(readyState := Closed)) else None))
  }

  /** `disconnect`: close and forget the socket. The counter is untouched. */
  function DisconnectStep(s: ServiceState): (r: ServiceState)
    ensures r.ws.None? && r.reconnectAttempts == s.reconnectAttempts
  {
    s.(ws := None)
  }

  /** `sendMessage`: the serialized message, sent only on an open socket. */
  function Send(s: ServiceState, message: Json): (sent: Option<string>)
    ensures sent.Some? <==> s.ws.Some? && s.ws.value.readyState == Open
    ensures sent.Some? ==> sent.value == Stringify(message)
  {
    if s.ws.Some? && s.ws.value.readyState == Open then Some(Stringify(message)) else None
  }

  /** The delays of `n` reconnects in a row, each connection failing to open. */
  function FailingReconnects(s: ServiceState, n: nat): seq<nat>
    decreases n
  {
    if n == 0 then []
    else
      var r := ClosedEvent(s);
      (if r.reconnectIn.Some? then [r.reconnectIn.value] else []) + FailingReconnects(r.state, n - 1)
  }

  function Min(a: nat, b: nat): nat
  {
    if a <= b then a else b
  }

  /** Backoff from any counter `k`: the next closes wait `1000 * (k+1)`,
      `1000 * (k+2)`, ..., and stop once five attempts have been made. */
  lemma {:induction false} FailingReconnectsFrom(s: ServiceState, n: nat)
    requires Bounded(s)
    ensures var k := s.reconnectAttempts;
      && |FailingReconnects(s, n)| == Min(n, MaxReconnectAttempts - k)
      && forall i :: 0 <= i < |FailingReconnects(s, n)| ==> FailingReconnects(s, n)[i] == ReconnectDelay * (k + i + 1)
    decreases n
  {
    if n > 0 {
      var r := ClosedEvent(s);
      FailingReconnectsFrom(r.state, n - 1);
      var rest := FailingReconnects(r.state, n - 1);
      if r.reconnectIn.Some? {
        forall i | 0 <= i < |FailingReconnects(s, n)|
          ensures FailingReconnects(s, n)[i] == ReconnectDelay * (s.reconnectAttempts + i + 1)
        {
          if i > 0 { assert FailingReconnects(s, n)[i] == rest[i - 1]; }
        }
      }
    }
  }

  /** From a fresh or just-opened service, repeated failures reconnect after
      1 s, 2 s, 3 s, 4 s and 5 s, and then give up. */
  lemma ReconnectSchedule(s: ServiceState)
    requires s.reconnectAttempts == 0
    ensures FailingReconnects(s, 10) == [1000, 2000, 3000, 4000, 5000]
  {
    FailingReconnectsFrom(s, 10);
    var d := FailingReconnects(s, 10);
    assert d[0] == 1000 && d[1] == 2000 && d[2] == 3000 && d[3] == 4000 && d[4] == 5000;
  }

  /** Closing the socket through `disconnect` still runs the socket's
      `onclose` handler, which schedules a reconnect while attempts remain. */
  lemma DisconnectDoesNotStopReconnect(s: ServiceState)
    requires s.reconnectAttempts < MaxReconnectAttempts
    ensures ClosedEvent(DisconnectStep(s)).reconnectIn == Some(ReconnectDelay * (s.reconnectAttempts + 1))
  {
  }

  // ---------------------------------------------------------------------
  // Cache invalidation on pushed updates
  // ---------------------------------------------------------------------

  /** `String(v)` of a decoded value in a template literal; None is undefined. */
  function JsString(v: Option<Json>): string
  {
    if v.None? then "undefined" else JsValueString(v.value)
  }

  function JsValueString(j: Json): string
  {
    match j
    case JNull => "null"
    case JBool(b) => if b then "true" else "false"
    case JNum(n) => IntToString(n)
    case JStr(s) => s
    case JObj(_) => "[object Object]"
    case JArr(items) =>
      Join(seq(|items|, i requires 0 <= i < |items| => if items[i] == JNull then "" else JsValueString(items[i])))
  }

  /** What `handleRealTimeUpdate` does with a message: evict the keys that a
      pattern matches, ignore it, or throw (reading `type` of null). */
  datatype UpdateAction = EvictPattern(pattern: string) | Ignore | ThrowsOnNull

  /** Seat changes and sales evict every seat listing; an event change evicts
      every key mentioning `events/<eventId>`; other types are ignored. */
  function UpdateActionFor(data: Json): (a: UpdateAction)
    ensures a.ThrowsOnNull? <==> data == JNull
    ensures (Field(data, "type") == Some(JStr("seat_updated")) || Field(data, "type") == Some(JStr("ticket_sold")))
            <==> a == EvictPattern("seats")
    ensures a.EvictPattern? && a.pattern != "seats" ==>
              Field(data, "type") == Some(JStr("event_updated")) && a.pattern == "events/" + JsString(Field(data, "eventId"))
    ensures data != JNull && Field(data, "type") == Some(JStr("event_updated")) ==>
              a == EvictPattern("events/" + JsString(Field(data, "eventId")))
    ensures a == Ignore <==>
              data != JNull && Field(data, "type") !in {Some(JStr("seat_updated")), Some(JStr("ticket_sold")), Some(JStr("event_updated"))}
  {
    if data == JNull then ThrowsOnNull
    else
      var t := Field(data, "type");
      if t == Some(JStr("seat_updated")) || t == Some(JStr("ticket_sold")) then EvictPattern("seats")
      else if t == Some(JStr("event_updated")) then
        var p := "events/" + JsString(Field(data, "eventId"));
        assert p != "seats" by { assert p[0] != "seats"[0]; }
        EvictPattern(p)
      else Ignore
  }

  /** The cache after an update that does not throw. */
  function AfterUpdate(cache: map<string, CacheEntry>, data: Json): (r: map<string, CacheEntry>)
    ensures forall k :: k in r <==>
              k in cache && !(UpdateActionFor(data).EvictPattern? && Contains(k, UpdateActionFor(data).pattern))
    ensures forall k :: k in r ==> r[k] == cache[k]
  {
    match UpdateActionFor(data)
    case EvictPattern(p) => EvictMatching(cache, p)
    case _ => cache
  }

  /** After a seat change or a sale, no seat listing survives, whatever event
      or section it was for, and every other entry does. */
  lemma SaleEvictsEverySeatListing(cache: map<string, CacheEntry>, data: Json, eventId: string, section: Option<string>)
    requires Field(data, "type") == Some(JStr("ticket_sold")) || Field(data, "type") == Some(JStr("seat_updated"))
    ensures var c := GetAvailableSeats(eventId, section);
            CacheKey(c.endpoint, c.options) !in AfterUpdate(cache, data)
    ensures forall k :: k in cache && !Contains(k, "seats") ==> k in AfterUpdate(cache, data)
  {
  }

  /** An update of event `e` evicts that event's cached detail, and also the
      detail of every event whose id starts with `e`: the pattern is not
      anchored. */
  lemma EventUpdateEvictsItsDetail(cache: map<string, CacheEntry>, data: Json, e: string, more: string)
    requires Field(data, "type") == Some(JStr("event_updated")) && Field(data, "eventId") == Some(JStr(e))
    ensures var c := GetEventById(e + more);
            CacheKey(c.endpoint, c.options) !in AfterUpdate(cache, data)
  {
    var c := GetEventById(e + more);
    var back := more + "/:" + Stringify(OptionsJson(NoOptions));
    assert CacheKey(c.endpoint, c.options) == "/" + ("events/" + e) + back;
    ContainsInfix("/", "events/" + e, back);
  }

  /** Concretely: an update of event 1 also evicts the cached detail of
      event 12. */
  lemma EventUpdateOverEvicts(cache: map<string, CacheEntry>)
    ensures var data := JObj([Member("type", JStr("event_updated")), Member("eventId", JStr("1"))]);
            var c := GetEventById("12");
            CacheKey(c.endpoint, c.options) !in AfterUpdate(cache, data)
  {
    var data := JObj([Member("type", JStr("event_updated")), Member("eventId", JStr("1"))]);
    assert Field(data, "type") == Some(JStr("event_updated"));
    assert Field(data, "eventId") == Some(JStr("1"));
    EventUpdateEvictsItsDetail(cache, data, "1", "2");
    assert "1" + "2" == "12";
  }

  /** The service object. */
  class RealTimeService {
    var ws: Option<Socket>
    var reconnectAttempts: nat

    function State(): ServiceState
      reads this
    {
      ServiceState(ws, reconnectAttempts)
    }

    constructor ()
      ensures State() == ServiceState(None, 0)
    {
      ws := None;
      reconnectAttempts := 0;
    }

    method AttemptReconnect() returns (reconnectIn: Option<nat>)
      modifies this
      ensures Step(State(), reconnectIn) == Reconnect(old(State()))
    {
      if reconnectAttempts < MaxReconnectAttempts {
        reconnectAttempts := reconnectAttempts + 1;
        reconnectIn := Some(ReconnectDelay * reconnectAttempts);
      } else {
        reconnectIn := None;
      }
    }

    method Connect(token: Option<string>, constructionThrows: bool) returns (reconnectIn: Option<nat>)
      modifies this
      ensures Step(State(), reconnectIn) == ConnectStep(old(State()), token, constructionThrows)
    {
      if token.None? || token.value == "" {
        return None;
      }
      if constructionThrows {
        reconnectIn := AttemptReconnect();
      } else {
        ws := Some(Socket(SocketUrl(token.value), Connecting));
        reconnectIn := None;
      }
    }

    method OnOpen()
      modifies this
      ensures State() == Opened(old(State()))
    {
      if ws.Some? {
        ws := Some(ws.value.(readyState := Open));
      }
      reconnectAttempts := 0;
    }

    method OnClose() returns (reconnectIn: Option<nat>)
      modifies this
      ensures Step(State(), reconnectIn) == ClosedEvent(old(State()))
    {
      if ws.Some? {
        ws := Some(ws.value.(readyState := Closed));
      }
      reconnectIn := AttemptReconnect();
    }

    /** `onmessage` after parsing: apply the update to the client's cache.
        Returns false where the handler would throw. */
    method HandleRealTimeUpdate(client: UltraAPIClient, data: Json) returns (handled: bool)
      modifies client
      ensures handled <==> data != JNull
      ensures client.cache == AfterUpdate(old(client.cache), data)
    {
      var action := UpdateActionFor(data);
      handled := !action.ThrowsOnNull?;
      if action.EvictPattern? {
        client.ClearCacheByPattern(action.pattern);
      }
    }

    method Disconnect()
      modifies this
      ensures State() == DisconnectStep(old(State()))
    {
      ws := None;
    }

    method SendMessage(message: Json) returns (sent: Option<string>)
      ensures sent == Send(State(), message)
    {
      if ws.Some? && ws.value.readyState == Open {
        sent := Some(Stringify(message));
      } else {
        sent := None;
      }
    }
  }
}
