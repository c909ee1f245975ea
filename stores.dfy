/** The app's five client state stores (theme, user, events, tickets, UI).
    Each action replaces some fields of its store with a value computed from
    the old state: a shallow merge, a filter, a map or an append. The
    updaters are pure functions here, and each store is a class whose
    methods apply them to its fields and leave every other field alone.

    Persistence, and the fetch bodies of `fetchEvents`, `fetchEventById`,
    `fetchUserTickets` and `bookTickets`, are not part of this model; the
    outcome of the login request is an input. */
module Stores {
  import opened Common
  import opened ApiClient

  // ---------------------------------------------------------------------
  // Shallow merges
  // ---------------------------------------------------------------------

  /** A loosely typed record (a user, an event, a ticket): field name to value. */
  type Record = map<string, Json>

  /** `{ ...r, ...u }`: the supplied keys take the new values, every other
      key of `r` keeps its own. */
  function Merge(r: Record, u: Record): (m: Record)
    ensures m.Keys == r.Keys + u.Keys
    ensures forall k :: k in u ==> m[k] == u[k]
    ensures forall k :: k in r && k !in u ==> m[k] == r[k]
  {
    r + u
  }

  /** Merging nothing changes nothing, merging the same update twice is
      merging it once, and two merges are one merge of the combined update. */
  lemma MergeLaws(r: Record, u: Record, v: Record)
    ensures Merge(r, map[]) == r
    ensures Merge(Merge(r, u), u) == Merge(r, u)
    ensures Merge(Merge(r, u), v) == Merge(r, Merge(u, v))
  {
  }

  /** One field of a `Partial<T>` update: absent keeps the old value. */
  function Over<T>(old_: T, patch: Option<T>): T
  {
    if patch.Some? then patch.value else old_
  }

  /** The value of a record's field as the text a `===` against a string
      compares with: only a string equals a string. */
  predicate HasId(r: Record, id: string)
  {
    "id" in r && r["id"] == JStr(id)
  }

  function AsRecord(j: Json): Option<Record>
  {
    if j.JObj? then Some(map i | 0 <= i < |j.members| :: j.members[i].name := LastNamed(j.members, j.members[i].name).value)
    else None
  }

  // ---------------------------------------------------------------------
  // Theme store
  // ---------------------------------------------------------------------

  datatype ThemePreference = Light | Dark | Auto

  datatype ThemeState = ThemeState(currentTheme: ThemePreference, animations: bool, hapticFeedback: bool)

  /** A flag toggle, `!state.flag`: applied twice it restores the flag. */
  function Toggle(b: bool): (r: bool)
    ensures r != b
  {
    !b
  }

  class ThemeStore {
    var currentTheme: ThemePreference
    var animations: bool
    var hapticFeedback: bool

    function State(): ThemeState
      reads this
    {
      ThemeState(currentTheme, animations, hapticFeedback)
    }

    constructor ()
      ensures State() == ThemeState(Auto, true, true)
    {
      currentTheme := Auto;
      animations := true;
      hapticFeedback := true;
    }

    method SetTheme(theme: ThemePreference)
      modifies this
      ensures State() == old(State()).(currentTheme := theme)
    {
      currentTheme := theme;
    }

    method ToggleAnimations()
      modifies this
      ensures State() == old(State()).(animations := Toggle(old(animations)))
    {
      animations := !animations;
    }

    method ToggleHaptic()
      modifies this
      ensures State() == old(State()).(hapticFeedback := Toggle(old(hapticFeedback)))
    {
      hapticFeedback := !hapticFeedback;
    }
  }

  /** Toggling a flag twice gives back the store it started from. */
  lemma ToggleTwiceRestores(s: ThemeState)
    ensures s.(animations := Toggle(Toggle(s.animations))) == s
    ensures s.(hapticFeedback := Toggle(Toggle(s.hapticFeedback))) == s
  {
  }

  // ---------------------------------------------------------------------
  // User store
  // ---------------------------------------------------------------------

  datatype UserState = UserState(user: Option<Record>, isAuthenticated: bool, isLoading: bool, token: Option<string>)

  /** The session flag agrees with the presence of a user, as `setUser` keeps it. */
  predicate AuthConsistent(s: UserState)
  {
    s.isAuthenticated <==> s.user.Some?
  }

  function WithUser(s: UserState, user: Option<Record>): (r: UserState)
    ensures AuthConsistent(r)
    ensures r.user == user && r.token == s.token && r.isLoading == s.isLoading
  {
    s.(user := user, isAuthenticated := user.Some?)
  }

  function LoggedOut(s: UserState): (r: UserState)
    ensures AuthConsistent(r)
    ensures r.user.None? && r.token.None? && !r.isAuthenticated && r.isLoading == s.isLoading
  {
    s.(user := None, token := None, isAuthenticated := false)
  }

  /** `updateProfile`: with no user nothing happens, else the updates are merged in. */
  function WithProfileUpdate(s: UserState, updates: Record): (r: UserState)
    ensures s.user.None? ==> r == s
    ensures s.user.Some? ==> r == s.(user := Some(Merge(s.user.value, updates)))
    ensures AuthConsistent(s) ==> AuthConsistent(r)
  {
    if s.user.Some? then s.(user := Some(Merge(s.user.value, updates))) else s
  }

  function TokenOf(data: Json): Option<string>
  {
    var t := Field(data, "token");
    if t.Some? && t.value.JStr? then Some(t.value.s) else None
  }

  function UserOf(data: Json): Option<Record>
  {
    var u := Field(data, "user");
    if u.Some? then AsRecord(u.value) else None
  }

  /** `login` as written: any response whose body decodes to a value other
      than null is taken as a successful login, whatever its status. A failed
      fetch, an undecodable body or a null body (reading `data.user` throws)
      only clears the loading flag. */
  function LoginResultAsWritten(s: UserState, outcome: FetchOutcome): (r: UserState)
    ensures !r.isLoading
    ensures outcome.Response? && outcome.body.Some? && outcome.body.value != JNull ==>
              r == s.(user := UserOf(outcome.body.value), token := TokenOf(outcome.body.value),
                      isAuthenticated := true, isLoading := false)
    ensures !(outcome.Response? && outcome.body.Some? && outcome.body.value != JNull) ==>
              r == s.(isLoading := false)
  {
    if outcome.NetworkFailure? || outcome.body.None? || outcome.body == Some(JNull) then s.(isLoading := false)
    else
      var data := outcome.body.value;
      s.(user := UserOf(data), token := TokenOf(data), isAuthenticated := true, isLoading := false)
  }

  /** A login the server refuses still marks the session authenticated, with
      no user and no token. */
  lemma RejectedLoginAuthenticates(s: UserState)
    ensures var refused := Response(false, 401, Some(JObj([Member("detail", JStr("Invalid credentials"))])));
            var r := LoginResultAsWritten(s, refused);
            r.isAuthenticated && r.user.None? && r.token.None? && !AuthConsistent(r)
  {
    var data := JObj([Member("detail", JStr("Invalid credentials"))]);
    assert Field(data, "user").None? && Field(data, "token").None?;
  }

  /** The status of the response is never consulted: two responses with
      the same body, whatever their `ok` flags and status codes, log in
      alike. */
  lemma LoginStatusNeverRead(s: UserState, ok1: bool, status1: int, ok2: bool, status2: int, body: Option<Json>)
    ensures LoginResultAsWritten(s, Response(ok1, status1, body)) == LoginResultAsWritten(s, Response(ok2, status2, body))
  {
  }

  /** `login` as evidently intended: only an ok response logs in, and the
      session flag follows the user it carries, as `setUser` does. */
  function LoginResult(s: UserState, outcome: FetchOutcome): (r: UserState)
    ensures !r.isLoading
    ensures !(outcome.Response? && outcome.ok) ==> r == s.(isLoading := false)
    ensures outcome.Response? && outcome.ok && !(outcome.body.Some? && outcome.body.value != JNull) ==>
              r == s.(isLoading := false)
    ensures outcome.Response? && outcome.ok && outcome.body.Some? && outcome.body.value != JNull ==>
              r.user == UserOf(outcome.body.value) && r.token == TokenOf(outcome.body.value) &&
              r.isAuthenticated == r.user.Some?
  {
    if outcome.NetworkFailure? || !outcome.ok || outcome.body.None? || outcome.body == Some(JNull) then s.(isLoading := false)
    else
      var data := outcome.body.value;
      var user := UserOf(data);
      s.(user := user, token := TokenOf(data), isAuthenticated := user.Some?, isLoading := false)
  }

  /** Every user-store action keeps the session flag in step with the user. */
  lemma UserActionsKeepAuthConsistent(s: UserState, user: Option<Record>, token: Option<string>,
                                      updates: Record, outcome: FetchOutcome)
    requires AuthConsistent(s)
    ensures AuthConsistent(WithUser(s, user)) && AuthConsistent(LoggedOut(s)) && AuthConsistent(s.(token := token))
    ensures AuthConsistent(WithProfileUpdate(s, updates))
    ensures AuthConsistent(LoginResult(s.(isLoading := true), outcome))
  {
  }

  class UserStore {
    var user: Option<Record>
    var isAuthenticated: bool
    var isLoading: bool
    var token: Option<string>

    function State(): UserState
      reads this
    {
      UserState(user, isAuthenticated, isLoading, token)
    }

    constructor ()
      ensures State() == UserState(None, false, false, None)
    {
      user := None;
      isAuthenticated := false;
      isLoading := false;
      token := None;
    }

    method SetUser(u: Option<Record>)
      modifies this
      ensures State() == WithUser(old(State()), u)
    {
      user := u;
      isAuthenticated := u.Some?;
    }

    method SetToken(t: Option<string>)
      modifies this
      ensures State() == old(State()).(token := t)
    {
      token := t;
    }

    /** The whole `login` action: loading is raised, then the request's
        outcome is applied. */
    method Login(outcome: FetchOutcome)
      modifies this
      ensures State() == LoginResult(old(State()).(isLoading := true), outcome)
    {
      isLoading := true;
      if outcome.NetworkFailure? || !outcome.ok || outcome.body.None? || outcome.body == Some(JNull) {
        isLoading := false;
      } else {
        var data := outcome.body.value;
        user := UserOf(data);
        token := TokenOf(data);
        isAuthenticated := user.Some?;
        isLoading := false;
      }
    }

    method Logout()
      modifies this
      ensures State() == LoggedOut(old(State()))
    {
      user := None;
      token := None;
      isAuthenticated := false;
    }

    method UpdateProfile(updates: Record)
      modifies this
      ensures State() == WithProfileUpdate(old(State()), updates)
    {
      if user.Some? {
        user := Some(Merge(user.value, updates));
      }
    }
  }

  // ---------------------------------------------------------------------
  // Events store
  // ---------------------------------------------------------------------

  /** The event-list filters; dates are instants in milliseconds. */
  datatype Filters = Filters(category: Option<string>, dateRange: Option<(int, int)>,
                             priceRange: Option<(int, int)>, location: Option<string>)

  /** A `Partial<filters>`: each field absent, or a new (possibly null) value. */
  datatype FiltersPatch = FiltersPatch(category: Option<Option<string>>, dateRange: Option<Option<(int, int)>>,
                                       priceRange: Option<Option<(int, int)>>, location: Option<Option<string>>)

  const NoFilters := Filters(None, None, None, None)

  function MergeFilters(f: Filters, p: FiltersPatch): (r: Filters)
    ensures p.category.Some? ==> r.category == p.category.value
    ensures p.category.None? ==> r.category == f.category
    ensures p.dateRange.Some? ==> r.dateRange == p.dateRange.value
    ensures p.dateRange.None? ==> r.dateRange == f.dateRange
    ensures p.priceRange.Some? ==> r.priceRange == p.priceRange.value
    ensures p.priceRange.None? ==> r.priceRange == f.priceRange
    ensures p.location.Some? ==> r.location == p.location.value
    ensures p.location.None? ==> r.location == f.location
  {
    Filters(Over(f.category, p.category), Over(f.dateRange, p.dateRange),
            Over(f.priceRange, p.priceRange), Over(f.location, p.location))
  }

  /** `setFilters` with the same patch twice is `setFilters` once; the empty
      patch changes nothing. */
  lemma MergeFiltersLaws(f: Filters, p: FiltersPatch)
    ensures MergeFilters(MergeFilters(f, p), p) == MergeFilters(f, p)
    ensures MergeFilters(f, FiltersPatch(None, None, None, None)) == f
  {
  }

  /** `events.map(e => e.id === id ? { ...e, ...u } : e)`. */
  function UpdateById(events: seq<Record>, id: string, u: Record): (r: seq<Record>)
    ensures |r| == |events|
    ensures forall i :: 0 <= i < |events| ==> r[i] == if HasId(events[i], id) then Merge(events[i], u) else events[i]
  {
    seq(|events|, i requires 0 <= i < |events| => if HasId(events[i], id) then Merge(events[i], u) else events[i])
  }

  /** `selectedEvent?.id === id ? { ...selectedEvent, ...u } : selectedEvent`. */
  function UpdateSelected(selected: Option<Record>, id: string, u: Record): (r: Option<Record>)
    ensures r.Some? <==> selected.Some?
    ensures selected.Some? && !HasId(selected.value, id) ==> r == selected
    ensures selected.Some? && HasId(selected.value, id) ==>
              r.value.Keys == selected.value.Keys + u.Keys &&
              (forall k :: k in u ==> r.value[k] == u[k]) &&
              (forall k :: k in selected.value && k !in u ==> r.value[k] == selected.value[k])
  {
    if selected.Some? && HasId(selected.value, id) then Some(Merge(selected.value, u)) else selected
  }

  /** An update that does not touch `id` keeps every event matching the same
      events afterwards: the list changes only at the events with that id. */
  lemma {:induction false} UpdateByIdKeepsIds(events: seq<Record>, id: string, u: Record, other: string)
    requires "id" !in u
    ensures forall i :: 0 <= i < |events| ==> (HasId(UpdateById(events, id, u)[i], other) <==> HasId(events[i], other))
  {
    forall i | 0 <= i < |events|
      ensures HasId(UpdateById(events, id, u)[i], other) <==> HasId(events[i], other)
    {
      var m := Merge(events[i], u);
      assert "id" in m <==> "id" in events[i];
      if "id" in events[i] { assert m["id"] == events[i]["id"]; }
    }
  }

  /** Updating an id that no event has changes nothing. */
  lemma UpdateUnknownIdIsNoop(events: seq<Record>, id: string, u: Record)
    requires forall i :: 0 <= i < |events| ==> !HasId(events[i], id)
    ensures UpdateById(events, id, u) == events
  {
  }

  datatype EventsState = EventsState(events: seq<Record>, selectedEvent: Option<Record>, filters: Filters,
                                     searchQuery: string, isLoading: bool)

  class EventsStore {
    var events: seq<Record>
    var selectedEvent: Option<Record>
    var filters: Filters
    var searchQuery: string
    var isLoading: bool

    function State(): EventsState
      reads this
    {
      EventsState(events, selectedEvent, filters, searchQuery, isLoading)
    }

    constructor ()
      ensures State() == EventsState([], None, NoFilters, "", false)
    {
      events := [];
      selectedEvent := None;
      filters := NoFilters;
      searchQuery := "";
      isLoading := false;
    }

    method SetEvents(es: seq<Record>)
      modifies this
      ensures State() == old(State()).(events := es)
    {
      events := es;
    }

    method SetSelectedEvent(e: Option<Record>)
      modifies this
      ensures State() == old(State()).(selectedEvent := e)
    {
      selectedEvent := e;
    }

    method AddEvent(e: Record)
      modifies this
      ensures State() == old(State()).(events := old(events) + [e])
    {
      events := events + [e];
    }

    method UpdateEvent(id: string, u: Record)
      modifies this
      ensures State() == old(State()).(events := UpdateById(old(events), id, u),
                                       selectedEvent := UpdateSelected(old(selectedEvent), id, u))
    {
      events := UpdateById(events, id, u);
      selectedEvent := UpdateSelected(selectedEvent, id, u);
    }

    method SetFilters(p: FiltersPatch)
      modifies this
      ensures State() == old(State()).(filters := MergeFilters(old(filters), p))
    {
      filters := MergeFilters(filters, p);
    }

    method SetSearchQuery(q: string)
      modifies this
      ensures State() == old(State()).(searchQuery := q)
    {
      searchQuery := q;
    }
  }

  // ---------------------------------------------------------------------
  // Tickets store
  // ---------------------------------------------------------------------

  datatype Seat = Seat(id: string, row: string, number: string, price: int, isSelected: bool)

  function SeatId(s: Seat): string
  {
    s.id
  }

  /** `addSeat`: one more entry at the end, marked selected; no check for a
      seat already in the list. */
  function AddSeatTo(seats: seq<Seat>, seat: Seat): (r: seq<Seat>)
    ensures |r| == |seats| + 1 && r[..|seats|] == seats
    ensures r[|seats|] == seat.(isSelected := true)
  {
    seats + [seat.(isSelected := true)]
  }

  /** `removeSeat`. */
  function WithoutSeat(seats: seq<Seat>, id: string): (r: seq<Seat>)
  {
    RemoveById(seats, SeatId, id)
  }

  /** Adding a seat whose id is not selected and then removing that id gives
      back the list as it was. */
  lemma AddThenRemoveSeatRestores(seats: seq<Seat>, seat: Seat)
    requires forall i :: 0 <= i < |seats| ==> seats[i].id != seat.id
    ensures WithoutSeat(AddSeatTo(seats, seat), seat.id) == seats
  {
    RemoveByIdConcat(seats, [seat.(isSelected := true)], SeatId, seat.id);
    RemoveAbsentId(seats, SeatId, seat.id);
  }

  /** `addSeat` does not deduplicate: the same seat added twice is listed twice. */
  lemma AddSeatTwiceListsItTwice(seats: seq<Seat>, seat: Seat)
    ensures var r := AddSeatTo(AddSeatTo(seats, seat), seat);
            |r| == |seats| + 2 && r[|seats|] == r[|seats| + 1]
  {
  }

  datatype BookingStep = SelectSeats | Review | Payment | Confirmation

  datatype BookingFlow = BookingFlow(step: BookingStep, eventId: Option<string>, sectionId: Option<string>, quantity: int)

  datatype BookingFlowPatch = BookingFlowPatch(step: Option<BookingStep>, eventId: Option<Option<string>>,
                                               sectionId: Option<Option<string>>, quantity: Option<int>)

  const InitialBookingFlow := BookingFlow(SelectSeats, None, None, 1)

  function MergeBookingFlow(f: BookingFlow, p: BookingFlowPatch): (r: BookingFlow)
    ensures p.step.Some? ==> r.step == p.step.value
    ensures p.step.None? ==> r.step == f.step
    ensures p.eventId.Some? ==> r.eventId == p.eventId.value
    ensures p.eventId.None? ==> r.eventId == f.eventId
    ensures p.sectionId.Some? ==> r.sectionId == p.sectionId.value
    ensures p.sectionId.None? ==> r.sectionId == f.sectionId
    ensures p.quantity.Some? ==> r.quantity == p.quantity.value
    ensures p.quantity.None? ==> r.quantity == f.quantity
  {
    BookingFlow(Over(f.step, p.step), Over(f.eventId, p.eventId), Over(f.sectionId, p.sectionId), Over(f.quantity, p.quantity))
  }

  lemma MergeBookingFlowLaws(f: BookingFlow, p: BookingFlowPatch)
    ensures MergeBookingFlow(MergeBookingFlow(f, p), p) == MergeBookingFlow(f, p)
    ensures MergeBookingFlow(f, BookingFlowPatch(None, None, None, None)) == f
  {
  }

  datatype TicketsState = TicketsState(tickets: seq<Record>, selectedSeats: seq<Seat>, bookingFlow: BookingFlow, isLoading: bool)

  /** `resetBooking`: no seats and the initial booking flow; tickets and the
      loading flag are untouched. */
  function BookingReset(s: TicketsState): (r: TicketsState)
    ensures r.selectedSeats == [] && r.bookingFlow == InitialBookingFlow
    ensures r.tickets == s.tickets && r.isLoading == s.isLoading
  {
    s.(selectedSeats := [], bookingFlow := InitialBookingFlow)
  }

  /** Resetting is idempotent and brings the booking back to the store's
      initial booking state, whatever was selected before. */
  lemma ResetBookingRestoresInitial(s: TicketsState, seats: seq<Seat>, p: BookingFlowPatch)
    ensures BookingReset(BookingReset(s)) == BookingReset(s)
    ensures BookingReset(s.(selectedSeats := seats, bookingFlow := MergeBookingFlow(s.bookingFlow, p))) == BookingReset(s)
  {
  }

  class TicketsStore {
    var tickets: seq<Record>
    var selectedSeats: seq<Seat>
    var bookingFlow: BookingFlow
    var isLoading: bool

    function State(): TicketsState
      reads this
    {
      TicketsState(tickets, selectedSeats, bookingFlow, isLoading)
    }

    constructor ()
      ensures State() == TicketsState([], [], InitialBookingFlow, false)
    {
      tickets := [];
      selectedSeats := [];
      bookingFlow := InitialBookingFlow;
      isLoading := false;
    }

    method SetTickets(ts: seq<Record>)
      modifies this
      ensures State() == old(State()).(tickets := ts)
    {
      tickets := ts;
    }

    method AddTicket(t: Record)
      modifies this
      ensures State() == old(State()).(tickets := old(tickets) + [t])
    {
      tickets := tickets + [t];
    }

    method SetSelectedSeats(seats: seq<Seat>)
      modifies this
      ensures State() == old(State()).(selectedSeats := seats)
    {
      selectedSeats := seats;
    }

    method AddSeat(seat: Seat)
      modifies this
      ensures State() == old(State()).(selectedSeats := AddSeatTo(old(selectedSeats), seat))
    {
      selectedSeats := selectedSeats + [seat.(isSelected := true)];
    }

    method RemoveSeat(id: string)
      modifies this
      ensures State() == old(State()).(selectedSeats := WithoutSeat(old(selectedSeats), id))
    {
      selectedSeats := WithoutSeat(selectedSeats, id);
    }

    method SetBookingFlow(p: BookingFlowPatch)
      modifies this
      ensures State() == old(State()).(bookingFlow := MergeBookingFlow(old(bookingFlow), p))
    {
      bookingFlow := MergeBookingFlow(bookingFlow, p);
    }

    method ResetBooking()
      modifies this
      ensures State() == BookingReset(old(State()))
    {
      selectedSeats := [];
      bookingFlow := InitialBookingFlow;
    }
  }

  // ---------------------------------------------------------------------
  // UI store
  // ---------------------------------------------------------------------

  datatype NotificationType = Success | Error | Warning | Info

  datatype Notification = Notification(id: string, kind: NotificationType, title: string, message: string, timestamp: int)

  function NotificationId(n: Notification): string
  {
    n.id
  }

  /** How long a notification stays before its timer removes it, in ms. */
  const NotificationLifetime := 5000

  /** `addNotification` at time `now` (ms since the epoch): one entry at the
      end, whose id is the decimal text of `now`. */
  function AddNotificationAt(ns: seq<Notification>, kind: NotificationType, title: string, message: string, now: nat)
    : (r: seq<Notification>)
    ensures |r| == |ns| + 1 && r[..|ns|] == ns
    ensures r[|ns|].id == NatToString(now) && r[|ns|].kind == kind && r[|ns|].timestamp == now
  {
    ns + [Notification(NatToString(now), kind, title, message, now)]
  }

  /** `removeNotification`. */
  function WithoutNotification(ns: seq<Notification>, id: string): (r: seq<Notification>)
  {
    RemoveById(ns, NotificationId, id)
  }

  /** A notification added when no other has its id is gone again once its
      timer fires, and the others are back as they were. */
  lemma NotificationTimerRestores(ns: seq<Notification>, kind: NotificationType, title: string, message: string, now: nat)
    requires forall i :: 0 <= i < |ns| ==> ns[i].id != NatToString(now)
    ensures WithoutNotification(AddNotificationAt(ns, kind, title, message, now), NatToString(now)) == ns
  {
    var n := Notification(NatToString(now), kind, title, message, now);
    RemoveByIdConcat(ns, [n], NotificationId, n.id);
    RemoveAbsentId(ns, NotificationId, n.id);
  }

  /** Ids are millisecond timestamps, so two notifications added in the same
      millisecond share an id, and the first one's timer removes both. */
  lemma SameMillisecondNotificationsShareTimer(ns: seq<Notification>, a: (string, string), b: (string, string), now: nat)
    requires forall i :: 0 <= i < |ns| ==> ns[i].id != NatToString(now)
    ensures WithoutNotification(AddNotificationAt(AddNotificationAt(ns, Info, a.0, a.1, now), Info, b.0, b.1, now), NatToString(now)) == ns
  {
    var id := NatToString(now);
    var two := [Notification(id, Info, a.0, a.1, now), Notification(id, Info, b.0, b.1, now)];
    assert AddNotificationAt(AddNotificationAt(ns, Info, a.0, a.1, now), Info, b.0, b.1, now) == ns + two;
    RemoveByIdConcat(ns, two, NotificationId, id);
    RemoveAbsentId(ns, NotificationId, id);
  }

  datatype Platform = IOS | Android | Web

  datatype DeviceInfo = DeviceInfo(hasNotch: bool, screenDimensions: (int, int), platform: Platform)

  datatype DeviceInfoPatch = DeviceInfoPatch(hasNotch: Option<bool>, screenDimensions: Option<(int, int)>, platform: Option<Platform>)

  function MergeDeviceInfo(d: DeviceInfo, p: DeviceInfoPatch): (r: DeviceInfo)
    ensures p.hasNotch.Some? ==> r.hasNotch == p.hasNotch.value
    ensures p.hasNotch.None? ==> r.hasNotch == d.hasNotch
    ensures p.screenDimensions.Some? ==> r.screenDimensions == p.screenDimensions.value
    ensures p.screenDimensions.None? ==> r.screenDimensions == d.screenDimensions
    ensures p.platform.Some? ==> r.platform == p.platform.value
    ensures p.platform.None? ==> r.platform == d.platform
  {
    DeviceInfo(Over(d.hasNotch, p.hasNotch), Over(d.screenDimensions, p.screenDimensions), Over(d.platform, p.platform))
  }

  lemma MergeDeviceInfoLaws(d: DeviceInfo, p: DeviceInfoPatch)
    ensures MergeDeviceInfo(MergeDeviceInfo(d, p), p) == MergeDeviceInfo(d, p)
    ensures MergeDeviceInfo(d, DeviceInfoPatch(None, None, None)) == d
  {
  }

  datatype UIState = UIState(isNavBarVisible: bool, currentModal: Option<string>, notifications: seq<Notification>,
                             isOnline: bool, deviceInfo: DeviceInfo)

  const InitialDeviceInfo := DeviceInfo(false, (375, 812), IOS)

  class UIStore {
    var isNavBarVisible: bool
    var currentModal: Option<string>
    var notifications: seq<Notification>
    var isOnline: bool
    var deviceInfo: DeviceInfo

    function State(): UIState
      reads this
    {
      UIState(isNavBarVisible, currentModal, notifications, isOnline, deviceInfo)
    }

    constructor ()
      ensures State() == UIState(true, None, [], true, InitialDeviceInfo)
    {
      isNavBarVisible := true;
      currentModal := None;
      notifications := [];
      isOnline := true;
      deviceInfo := InitialDeviceInfo;
    }

    method SetNavBarVisible(visible: bool)
      modifies this
      ensures State() == old(State()).(isNavBarVisible := visible)
    {
      isNavBarVisible := visible;
    }

    method ShowModal(name: string)
      modifies this
      ensures State() == old(State()).(currentModal := Some(name))
    {
      currentModal := Some(name);
    }

    method HideModal()
      modifies this
      ensures State() == old(State()).(currentModal := None)
    {
      currentModal := None;
    }

    /** Appends the notification and returns its id and the delay after
        which its removal is scheduled. */
    method AddNotification(kind: NotificationType, title: string, message: string, now: nat)
      returns (id: string, removeAfter: nat)
      modifies this
      ensures State() == old(State()).(notifications := AddNotificationAt(old(notifications), kind, title, message, now))
      ensures id == NatToString(now) && removeAfter == NotificationLifetime
    {
      id := NatToString(now);
      notifications := notifications + [Notification(id, kind, title, message, now)];
      removeAfter := NotificationLifetime;
    }

    method RemoveNotification(id: string)
      modifies this
      ensures State() == old(State()).(notifications := WithoutNotification(old(notifications), id))
    {
      notifications := WithoutNotification(notifications, id);
    }

    method SetOnlineStatus(online: bool)
      modifies this
      ensures State() == old(State()).(isOnline := online)
    {
      isOnline := online;
    }

    method SetDeviceInfo(p: DeviceInfoPatch)
      modifies this
      ensures State() == old(State()).(deviceInfo := MergeDeviceInfo(old(deviceInfo), p))
    {
      deviceInfo := MergeDeviceInfo(deviceInfo, p);
    }
  }
}
