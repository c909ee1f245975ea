/** The REST API's three permission classes: a role check for organizers
    and admins, the ticket-scanning check that defers to the event, and the
    object-level check that only an event's organizer (or an admin) passes.

    A permission method either answers or, when it reads an attribute the
    object or user does not have, raises `AttributeError`; both outcomes are
    modelled. `Event.can_be_scanned_by` is not defined by the models, so the
    answer it would give is part of the object. */
module Permissions {
  import opened Common

  /** The requesting user: anonymous, or a user row with its primary key,
      its stored role code and its superuser flag. */
  datatype RequestUser =
    | Anonymous
    | Authenticated(id: nat, role: string, isSuperuser: bool)

  /** The attributes a permission reads off an object, each present or not:
      `organizer` (a user key, or null), `event` (another object), and the
      answer `can_be_scanned_by` gives for each user. */
  datatype PermObject = PermObject(
    organizer: Option<Option<nat>>,
    event: Option<PermObject>,
    canBeScannedBy: Option<RequestUser -> bool>)

  /** A permission's outcome: a decision, or the attribute whose absence raised. */
  datatype Outcome = Decision(allowed: bool) | AttributeError(attribute: string)

  /** `IsOrganizerOrAdmin.has_permission`, and the identical body of
      `CanScanEventTickets.has_permission`. */
  predicate OrganizerOrAdmin(u: RequestUser)
  {
    u.Authenticated? && (u.role in ["organizer", "admin"] || u.isSuperuser)
  }

  /** Who passes the role check: never an anonymous user, always a
      superuser, and otherwise exactly organizers and admins. */
  lemma OrganizerOrAdminCases(u: RequestUser)
    ensures u.Anonymous? ==> !OrganizerOrAdmin(u)
    ensures u.Authenticated? && u.isSuperuser ==> OrganizerOrAdmin(u)
    ensures u.Authenticated? && !u.isSuperuser ==> (OrganizerOrAdmin(u) <==> u.role == "organizer" || u.role == "admin")
  {
  }

  /** `request.user == organizer`: model equality compares primary keys, and
      the anonymous user equals no row. */
  predicate SameUser(u: RequestUser, organizer: Option<nat>)
  {
    u.Authenticated? && organizer == Some(u.id)
  }

  /** `CanScanEventTickets.has_object_permission`: no object, no scan;
      otherwise ask the ticket's event (or the object itself, when it has no
      event) whether this user may scan. */
  function CanScanObject(u: RequestUser, obj: Option<PermObject>): (r: Outcome)
    ensures obj.None? ==> r == Decision(false)
    ensures r.Decision? && r.allowed ==> obj.Some?
    ensures obj.Some? && obj.value.event.Some? ==>
              (r.Decision? <==> obj.value.event.value.canBeScannedBy.Some?) &&
              (r.Decision? ==> r.allowed == obj.value.event.value.canBeScannedBy.value(u))
    ensures obj.Some? && obj.value.event.None? ==>
              (r.Decision? <==> obj.value.canBeScannedBy.Some?) &&
              (r.Decision? ==> r.allowed == obj.value.canBeScannedBy.value(u))
    ensures r.AttributeError? ==> r.attribute == "can_be_scanned_by"
  {
    if obj.None? then Decision(false)
    else
      var target := if obj.value.event.Some? then obj.value.event.value else obj.value;
      if target.canBeScannedBy.Some? then Decision(target.canBeScannedBy.value(u))
      else AttributeError("can_be_scanned_by")
  }

  /** A ticket is scannable by exactly the users its event, asked directly,
      lets scan: the ticket's own answer, if it has one, is never consulted. */
  lemma TicketScanDefersToEvent(u: RequestUser, ticket: PermObject, e: PermObject)
    requires ticket.event == Some(e) && e.event.None?
    ensures CanScanObject(u, Some(ticket)) == CanScanObject(u, Some(e))
  {
  }

  /** The organizer-or-admin test of `IsEventOrganizer`, on one organizer value.
      The role is read only when the user is not the organizer. */
  function OrganizerTest(u: RequestUser, organizer: Option<nat>): Outcome
  {
    if SameUser(u, organizer) then Decision(true)
    else if u.Anonymous? then AttributeError("role")
    else Decision(u.role == "admin" || u.isSuperuser)
  }

  /** `IsEventOrganizer.has_object_permission`: an object with an organizer
      is tested directly (this branch comes first); an object with an event
      is tested through the event's organizer; anything else is refused. */
  function EventOrganizerObject(u: RequestUser, obj: PermObject): (r: Outcome)
    ensures obj.organizer.Some? ==> r == OrganizerTest(u, obj.organizer.value)
    ensures obj.organizer.None? && obj.event.None? ==> r == Decision(false)
  {
    if obj.organizer.Some? then OrganizerTest(u, obj.organizer.value)
    else if obj.event.Some? then
      (if obj.event.value.organizer.Some? then OrganizerTest(u, obj.event.value.organizer.value)
       else AttributeError("organizer"))
    else Decision(false)
  }

  /** `IsEventOrganizer.has_permission` is the framework default: every
      request passes, and only the object-level check restricts. */
  function EventOrganizerAllowed(u: RequestUser): (r: bool)
    ensures r
  {
    true
  }

  /** The object-level check grants exactly the organizer, admins and
      superusers, on an event and on a ticket of that event alike, and it
      raises only for an anonymous non-organizer or a ticket whose event has
      no organizer. */
  lemma {:induction false} EventOrganizerGrants(u: RequestUser, obj: PermObject)
    ensures var o := if obj.organizer.Some? then obj.organizer
                     else if obj.event.Some? then obj.event.value.organizer else None;
            var r := EventOrganizerObject(u, obj);
            o.Some? && u.Authenticated? ==>
              r == Decision(SameUser(u, o.value) || u.role == "admin" || u.isSuperuser)
    ensures EventOrganizerObject(u, obj).AttributeError? ==>
              (u.Anonymous? || (obj.organizer.None? && obj.event.Some? && obj.event.value.organizer.None?))
  {
  }

  /** An event's organizer may act on the event and on its tickets; another
      organizer may not; an admin may act on both. */
  lemma OrganizerScenarios(organizerId: nat, otherId: nat, adminId: nat)
    requires organizerId != otherId
    ensures var event := PermObject(Some(Some(organizerId)), None, None);
            var ticket := PermObject(None, Some(event), None);
            && EventOrganizerObject(Authenticated(organizerId, "organizer", false), event) == Decision(true)
            && EventOrganizerObject(Authenticated(organizerId, "organizer", false), ticket) == Decision(true)
            && EventOrganizerObject(Authenticated(otherId, "organizer", false), event) == Decision(false)
            && EventOrganizerObject(Authenticated(otherId, "organizer", false), ticket) == Decision(false)
            && EventOrganizerObject(Authenticated(adminId, "user", true), event) == Decision(true)
  {
  }

  /** With no organizer on the ticket's event, as the event model defines
      it, the ticket branch raises instead of answering. */
  lemma TicketOfEventWithoutOrganizerRaises(u: RequestUser, event: PermObject)
    requires event.organizer.None?
    ensures EventOrganizerObject(u, PermObject(None, Some(event), None)) == AttributeError("organizer")
  {
  }
}
