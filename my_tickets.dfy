/** The "my tickets" screen: each ticket's status is shown with a colour
    and an icon looked up case-insensitively, the list is replaced by what
    the server returns, and the QR modal shows one selected ticket. */
module MyTickets {
  import opened Common
  import TicketModels

  /** The statuses the screen's lookups recognise, after lower-casing. */
  datatype KnownStatus = Active | UsedStatus | CancelledStatus

  /** `status?.toLowerCase()` compared against the `switch` cases; None
      for a missing status and for any other string. */
  function Recognise(status: Option<string>): (r: Option<KnownStatus>)
    ensures r == Some(Active) <==> status.Some? && ToLower(status.value) == "active"
    ensures r == Some(UsedStatus) <==> status.Some? && ToLower(status.value) == "used"
    ensures r == Some(CancelledStatus) <==> status.Some? && ToLower(status.value) == "cancelled"
  {
    if status.None? then None
    else
      var lowered := ToLower(status.value);
      if lowered == "active" then Some(Active)
      else if lowered == "used" then Some(UsedStatus)
      else if lowered == "cancelled" then Some(CancelledStatus)
      else None
  }

  const DefaultColor := "#007AFF"
  const DefaultIcon := "ticket"

  /** `getStatusColor`. */
  function StatusColor(status: Option<string>): string
  {
    match Recognise(status)
    case Some(Active) => "#28a745"
    case Some(UsedStatus) => "#6c757d"
    case Some(CancelledStatus) => "#dc3545"
    case None => DefaultColor
  }

  /** `getStatusIcon`. */
  function StatusIcon(status: Option<string>): string
  {
    match Recognise(status)
    case Some(Active) => "checkmark-circle"
    case Some(UsedStatus) => "checkmark-done-circle"
    case Some(CancelledStatus) => "close-circle"
    case None => DefaultIcon
  }

  /** The two lookups recognise the same statuses: one falls back to its
      default exactly when the other does, and the recognised statuses get
      three different colours and three different icons. */
  lemma LookupsAgree(status: Option<string>, other: Option<string>)
    ensures StatusColor(status) == DefaultColor <==> Recognise(status).None?
    ensures StatusIcon(status) == DefaultIcon <==> Recognise(status).None?
    ensures Recognise(status).Some? && Recognise(other).Some? ==>
              (StatusColor(status) == StatusColor(other) <==> Recognise(status) == Recognise(other))
    ensures Recognise(status).Some? && Recognise(other).Some? ==>
              (StatusIcon(status) == StatusIcon(other) <==> Recognise(status) == Recognise(other))
  {
  }

  lemma {:induction false} ToLowerIdempotent(s: string)
    ensures ToLower(ToLower(s)) == ToLower(s)
  {
    ToLowerFixed(ToLower(s));
  }

  /** Case does not matter: a status and its lower-cased form look the same. */
  lemma CaseInsensitive(s: string)
    ensures Recognise(Some(s)) == Recognise(Some(ToLower(s)))
    ensures StatusColor(Some(s)) == StatusColor(Some(ToLower(s)))
    ensures StatusIcon(Some(s)) == StatusIcon(Some(ToLower(s)))
  {
    ToLowerIdempotent(s);
  }

  /** Of the four statuses a backend ticket can have, only 'cancelled' and
      'used' are recognised; 'pending' and 'paid', the status of every
      ticket that can still be scanned, fall back to the defaults. */
  lemma BackendStatuses(t: TicketModels.TicketStatus)
    ensures Recognise(Some(t.Code())).None? <==> t == TicketModels.Pending || t == TicketModels.Paid
    ensures t == TicketModels.Cancelled ==> StatusColor(Some(t.Code())) == "#dc3545"
    ensures t == TicketModels.Used ==> StatusIcon(Some(t.Code())) == "checkmark-done-circle"
  {
    var code := t.Code();
    ToLowerFixed(code);
    assert code != "active";
    if t == TicketModels.Pending {
      assert code != "used" && code != "cancelled";
    } else if t == TicketModels.Paid {
      assert code != "used" && code != "cancelled";
    }
  }

  /** One ticket of the list; the screen reads its status, the rest of
      the record is shown as is. */
  datatype TicketItem = TicketItem(id: int, status: Option<string>)

  /** `response.results || []`. */
  function TicketsFromResponse(results: Option<seq<TicketItem>>): (r: seq<TicketItem>)
    ensures results.Some? ==> r == results.value
    ensures results.None? ==> r == []
  {
    results.GetOr([])
  }

  /** The screen's state hooks. */
  class MyTicketsScreen {
    var tickets: seq<TicketItem>
    var loading: bool
    var refreshing: bool
    var selectedTicket: Option<TicketItem>
    var qrModalVisible: bool

    /** The modal is open exactly when a ticket is selected. */
    predicate ModalShowsSelection()
      reads this
    {
      qrModalVisible <==> selectedTicket.Some?
    }

    constructor ()
      ensures tickets == [] && loading && !refreshing && ModalShowsSelection()
    {
      tickets := [];
      loading := true;
      refreshing := false;
      selectedTicket := None;
      qrModalVisible := false;
    }

    /** `fetchTickets` after the request resolved with `results`. */
    method FetchSucceeded(results: Option<seq<TicketItem>>)
      modifies this
      ensures tickets == TicketsFromResponse(results) && !loading && !refreshing
      ensures selectedTicket == old(selectedTicket) && qrModalVisible == old(qrModalVisible)
    {
      tickets := results.GetOr([]);
      loading := false;
      refreshing := false;
    }

    /** `fetchTickets` after the request failed: an alert, the list kept. */
    method FetchFailed()
      modifies this
      ensures tickets == old(tickets) && !loading && !refreshing
      ensures selectedTicket == old(selectedTicket) && qrModalVisible == old(qrModalVisible)
    {
      loading := false;
      refreshing := false;
    }

    /** `onRefresh`, up to the request it starts. */
    method OnRefresh()
      modifies this
      ensures refreshing && tickets == old(tickets) && loading == old(loading)
      ensures selectedTicket == old(selectedTicket) && qrModalVisible == old(qrModalVisible)
    {
      refreshing := true;
    }

    method ShowQRCode(ticket: TicketItem)
      modifies this
      ensures selectedTicket == Some(ticket) && qrModalVisible && ModalShowsSelection()
      ensures tickets == old(tickets) && loading == old(loading) && refreshing == old(refreshing)
    {
      selectedTicket := Some(ticket);
      qrModalVisible := true;
    }

    method CloseQRModal()
      modifies this
      ensures selectedTicket.None? && !qrModalVisible && ModalShowsSelection()
      ensures tickets == old(tickets) && loading == old(loading) && refreshing == old(refreshing)
    {
      qrModalVisible := false;
      selectedTicket := None;
    }
  }
}
