/** The backend views the app calls: the event list ordered by start time
    (newest first), booking a ticket against an event's capacity, and the
    requester's own tickets ordered by creation time (newest first).

    The database is a sequence of rows; a query's ordering is a sort by the
    ordering key, which leaves rows with equal keys in an order the
    database is free to choose, so the contracts speak of sortedness and of
    which rows are returned, not of the order among ties. */
module TicketViews {
  import opened Common
  import opened TicketModels

  // ---------------------------------------------------------------------
  // Ordering by a key, descending
  // ---------------------------------------------------------------------

  predicate SortedDesc<T>(s: seq<T>, key: T -> int)
  {
    forall i, j :: 0 <= i < j < |s| ==> key(s[i]) >= key(s[j])
  }

  /** The rows of `rest`, which are those of `s`'s tail and `x`, all have
      keys no larger than `s`'s head when `x`'s key is no larger. */
  lemma BoundedByHead<T>(s: seq<T>, x: T, rest: seq<T>, key: T -> int)
    requires s != [] && SortedDesc(s, key) && key(x) <= key(s[0])
    requires multiset(rest) == multiset(s[1..]) + multiset{x}
    ensures forall k :: 0 <= k < |rest| ==> key(s[0]) >= key(rest[k])
  {
    forall k | 0 <= k < |rest| ensures key(s[0]) >= key(rest[k]) {
      assert rest[k] in multiset(rest);
      if rest[k] != x {
        assert rest[k] in multiset(s[1..]);
        var tail := s[1..];
        var m :| 0 <= m < |tail| && tail[m] == rest[k];
        assert s[m + 1] == rest[k];
      }
    }
  }

  /** `x` placed before the first element with a smaller key. */
  function InsertDesc<T>(x: T, s: seq<T>, key: T -> int): (r: seq<T>)
    requires SortedDesc(s, key)
    ensures SortedDesc(r, key)
    ensures multiset(r) == multiset(s) + multiset{x}
    ensures |r| == |s| + 1
  {
    if s == [] || key(s[0]) < key(x) then [x] + s
    else
      var rest := InsertDesc(x, s[1..], key);
      assert multiset(s) == multiset{s[0]} + multiset(s[1..]) by { assert s == [s[0]] + s[1..]; }
      BoundedByHead(s, x, rest, key);
      [s[0]] + rest
  }

  /** `order_by('-key')`: the same rows, largest key first. */
  function SortDesc<T>(s: seq<T>, key: T -> int): (r: seq<T>)
    ensures SortedDesc(r, key)
    ensures multiset(r) == multiset(s)
  {
    if s == [] then []
    else
      assert multiset(s) == multiset{s[0]} + multiset(s[1..]) by { assert s == [s[0]] + s[1..]; }
      InsertDesc(s[0], SortDesc(s[1..], key), key)
  }

  // ---------------------------------------------------------------------
  // Events
  // ---------------------------------------------------------------------

  /** An event row; instants are in milliseconds. */
  datatype EventRecord = EventRecord(id: nat, name: string, location: string, category: string,
                                     startTime: int, endTime: int, capacity: int, createdAt: int)

  function StartTime(e: EventRecord): int
  {
    e.startTime
  }

  /** `EventListCreateView`'s queryset: every event, latest start first. */
  function ListEvents(events: seq<EventRecord>): (r: seq<EventRecord>)
    ensures multiset(r) == multiset(events)
    ensures forall i, j :: 0 <= i < j < |r| ==> r[i].startTime >= r[j].startTime
  {
    SortDesc(events, StartTime)
  }

  // ---------------------------------------------------------------------
  // My tickets
  // ---------------------------------------------------------------------

  /** `Ticket.objects.filter(user=user)`, in table order. */
  function OwnedBy(tickets: seq<TicketRecord>, user: nat): (r: seq<TicketRecord>)
    ensures forall t :: multiset(r)[t] == if t.user == user then multiset(tickets)[t] else 0
  {
    if tickets == [] then []
    else
      assert tickets == [tickets[0]] + tickets[1..];
      (if tickets[0].user == user then [tickets[0]] else []) + OwnedBy(tickets[1..], user)
  }

  function CreatedAt(t: TicketRecord): int
  {
    t.createdAt
  }

  /** `MyTicketsView.get_queryset`. */
  function MyTickets(tickets: seq<TicketRecord>, user: nat): seq<TicketRecord>
  {
    SortDesc(OwnedBy(tickets, user), CreatedAt)
  }

  /** The requester sees exactly their own tickets, each as often as it is
      stored, newest first, and no one else's. */
  lemma MyTicketsSpec(tickets: seq<TicketRecord>, user: nat)
    ensures var r := MyTickets(tickets, user);
            && (forall t :: t in r ==> t.user == user && t in tickets)
            && (forall t :: t in tickets && t.user == user ==> t in r)
            && (forall t :: multiset(r)[t] == if t.user == user then multiset(tickets)[t] else 0)
            && (forall i, j :: 0 <= i < j < |r| ==> r[i].createdAt >= r[j].createdAt)
  {
    var r := MyTickets(tickets, user);
    forall t | t in r ensures t.user == user && t in tickets {
      assert multiset(r)[t] > 0;
    }
    forall t | t in tickets && t.user == user ensures t in r {
      assert multiset(tickets)[t] > 0;
    }
  }

  // ---------------------------------------------------------------------
  // Booking
  // ---------------------------------------------------------------------

  /** `Ticket.objects.filter(event=event).count()`. */
  function CountFor(tickets: seq<TicketRecord>, event: nat): nat
  {
    if tickets == [] then 0
    else (if tickets[0].event == event then 1 else 0) + CountFor(tickets[1..], event)
  }

  lemma {:induction false} CountForAppend(tickets: seq<TicketRecord>, t: TicketRecord, event: nat)
    ensures CountFor(tickets + [t], event) == CountFor(tickets, event) + (if t.event == event then 1 else 0)
    decreases |tickets|
  {
    if tickets != [] {
      assert (tickets + [t])[1..] == tickets[1..] + [t];
      CountForAppend(tickets[1..], t, event);
    } else {
      assert [] + [t] == [t];
    }
  }

  /** `get_object_or_404(Event, id=event_id)`: the event with that key, if
      any; a missing key matches nothing. */
  function FindEvent(events: seq<EventRecord>, id: Option<nat>): (r: Option<EventRecord>)
    ensures r.Some? <==> id.Some? && exists i :: 0 <= i < |events| && events[i].id == id.value
    ensures r.Some? ==> r.value in events && r.value.id == id.value
  {
    if id.None? || events == [] then None
    else if events[0].id == id.value then Some(events[0])
    else FindEvent(events[1..], id)
  }

  /** The booking view's responses. */
  datatype BookResponse = NotFound | FullyBooked(error: string) | Created(ticket: TicketRecord)
  {
    function Status(): int
    {
      match this
      case NotFound => 404
      case FullyBooked(_) => 400
      case Created(_) => 201
    }
  }

  /** `TicketCreateView.post`: 404 for an unknown event, then 400 once the
      event's tickets reach its capacity, else one new ticket for the
      requester. `id`, `token` and `now` are the new row's key, its random
      validation token and its creation instant. */
  function Book(events: seq<EventRecord>, tickets: seq<TicketRecord>, eventId: Option<nat>,
                user: nat, id: nat, token: string, now: int): (BookResponse, seq<TicketRecord>)
  {
    var event := FindEvent(events, eventId);
    if event.None? then (NotFound, tickets)
    else if CountFor(tickets, event.value.id) >= event.value.capacity then
      (FullyBooked("Event is fully booked."), tickets)
    else
      var ticket := Saved(NewTicket(id, user, event.value.id, token, now));
      (Created(ticket), tickets + [ticket])
  }

  /** The booking rules: an unknown event is a 404 whatever the counts; a
      known one is refused exactly when it is full; a success adds exactly
      one pending ticket for the requester and that event, and nothing else. */
  lemma BookSpec(events: seq<EventRecord>, tickets: seq<TicketRecord>, eventId: Option<nat>,
                 user: nat, id: nat, token: string, now: int)
    ensures var (resp, after) := Book(events, tickets, eventId, user, id, token, now);
            var event := FindEvent(events, eventId);
            && (resp.NotFound? <==> event.None?)
            && (resp.FullyBooked? <==> event.Some? && CountFor(tickets, event.value.id) >= event.value.capacity)
            && (!resp.Created? ==> after == tickets)
            && (resp.Created? ==>
                  && after == tickets + [resp.ticket]
                  && resp.ticket.user == user && resp.ticket.event == eventId.value
                  && resp.ticket.status == Pending
                  && CountFor(after, eventId.value) == CountFor(tickets, eventId.value) + 1)
  {
    var (resp, after) := Book(events, tickets, eventId, user, id, token, now);
    if resp.Created? {
      CountForAppend(tickets, resp.ticket, eventId.value);
    }
  }

  /** No event is overbooked: a full event has at most its capacity in
      tickets (an event booked nothing has none, whatever its capacity). */
  predicate WithinCapacity(events: seq<EventRecord>, tickets: seq<TicketRecord>)
  {
    forall i :: 0 <= i < |events| ==> CountFor(tickets, events[i].id) <= events[i].capacity || CountFor(tickets, events[i].id) == 0
  }

  /** Booking never overbooks an event, provided event keys are unique. */
  lemma BookKeepsCapacity(events: seq<EventRecord>, tickets: seq<TicketRecord>, eventId: Option<nat>,
                          user: nat, id: nat, token: string, now: int)
    requires forall i, j :: 0 <= i < j < |events| ==> events[i].id != events[j].id
    requires WithinCapacity(events, tickets)
    ensures WithinCapacity(events, Book(events, tickets, eventId, user, id, token, now).1)
  {
    var (resp, after) := Book(events, tickets, eventId, user, id, token, now);
    if resp.Created? {
      var e := FindEvent(events, eventId).value;
      forall i | 0 <= i < |events|
        ensures CountFor(after, events[i].id) <= events[i].capacity || CountFor(after, events[i].id) == 0
      {
        CountForAppend(tickets, resp.ticket, events[i].id);
        if events[i].id == e.id {
          var k :| 0 <= k < |events| && events[k] == e;
          assert k == i;
        }
      }
    }
  }

  /** The event and ticket tables behind the booking view. */
  class TicketTable {
    var events: seq<EventRecord>
    var tickets: seq<TicketRecord>
    var nextId: nat

    constructor (events: seq<EventRecord>)
      ensures this.events == events && tickets == [] && nextId == 1
    {
      this.events := events;
      tickets := [];
      nextId := 1;
    }

    /** Handles one booking request; the new row takes the next key. */
    method Post(eventId: Option<nat>, user: nat, token: string, now: int) returns (resp: BookResponse)
      modifies this
      ensures (resp, tickets) == Book(events, old(tickets), eventId, user, old(nextId), token, now)
      ensures events == old(events)
      ensures nextId == if resp.Created? then old(nextId) + 1 else old(nextId)
    {
      var event := FindEvent(events, eventId);
      if event.None? {
        return NotFound;
      }
      var current := CountFor(tickets, event.value.id);
      if current >= event.value.capacity {
        return FullyBooked("Event is fully booked.");
      }
      var ticket := Saved(NewTicket(nextId, user, event.value.id, token, now));
      tickets := tickets + [ticket];
      nextId := nextId + 1;
      resp := Created(ticket);
    }
  }
}
