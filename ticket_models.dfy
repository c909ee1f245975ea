/** The backend's ticket and user models: the four ticket statuses and the
    three user roles with their stored codes, and a ticket's scan lifecycle
    (`save` fills in the QR code, `mark_as_used` records a scan,
    `is_scannable` decides whether a scan is allowed).

    The ORM's writes are not modelled; `timezone.now()` is an input, and
    users and events are referred to by their primary keys. */
module TicketModels {
  import opened Common

  datatype TicketStatus = Pending | Paid | Cancelled | Used
  {
    /** The code stored in the `status` column. */
    function Code(): string
    {
      match this
      case Pending => "pending"
      case Paid => "paid"
      case Cancelled => "cancelled"
      case Used => "used"
    }
  }

  /** The status a stored code stands for; None for a code outside the choices. */
  function ParseStatus(code: string): (r: Option<TicketStatus>)
    ensures r.Some? ==> r.value.Code() == code
  {
    if code == "pending" then Some(Pending)
    else if code == "paid" then Some(Paid)
    else if code == "cancelled" then Some(Cancelled)
    else if code == "used" then Some(Used)
    else None
  }

  /** Every status is stored as a code that reads back as that status, and
      no two statuses share a code. */
  lemma StatusCodesRoundTrip(s: TicketStatus, t: TicketStatus)
    ensures ParseStatus(s.Code()) == Some(s)
    ensures s.Code() == t.Code() ==> s == t
  {
  }

  const DefaultStatus := Pending

  datatype Role = UserRole | Organizer | Admin
  {
    function Code(): string
    {
      match this
      case UserRole => "user"
      case Organizer => "organizer"
      case Admin => "admin"
    }
  }

  function ParseRole(code: string): (r: Option<Role>)
    ensures r.Some? ==> r.value.Code() == code
  {
    if code == "user" then Some(UserRole)
    else if code == "organizer" then Some(Organizer)
    else if code == "admin" then Some(Admin)
    else None
  }

  lemma RoleCodesRoundTrip(r: Role, q: Role)
    ensures ParseRole(r.Code()) == Some(r)
    ensures r.Code() == q.Code() ==> r == q
  {
  }

  /** A new user's role. */
  const DefaultRole := UserRole

  lemma DefaultRoleIsUser()
    ensures DefaultRole.Code() == "user"
  {
  }

  /** The fields of a ticket row. `qrCode` is nullable; `scannedAt` is the
      instant of the scan, null until then. */
  datatype TicketRecord = TicketRecord(
    id: nat, user: nat, event: nat, validationToken: string, qrCode: Option<string>,
    status: TicketStatus, createdAt: int, scannedAt: Option<int>, isValid: bool, scannedBy: Option<nat>)

  /** `validation_url`: the address the QR code points at. */
  function ValidationUrlFor(token: string): (url: string)
    ensures |url| > |token|
    ensures url[|url| - |token| - 1..|url| - 1] == token
  {
    "https://yourdomain.com/api/validate-ticket/" + token + "/"
  }

  /** Python truthiness of the QR code: null and the empty string are false. */
  predicate HasQrCode(t: TicketRecord)
  {
    t.qrCode.Some? && t.qrCode.value != ""
  }

  /** A ticket as `Ticket(user=..., event=...)` builds it, before its first save. */
  function NewTicket(id: nat, user: nat, event: nat, token: string, createdAt: int): TicketRecord
  {
    TicketRecord(id, user, event, token, None, DefaultStatus, createdAt, None, true, None)
  }

  /** `save`: a missing QR code becomes the validation URL; an existing one is kept. */
  function Saved(t: TicketRecord): (r: TicketRecord)
    ensures HasQrCode(r)
    ensures HasQrCode(t) ==> r == t
    ensures !HasQrCode(t) ==> r == t.(qrCode := Some(ValidationUrlFor(t.validationToken)))
  {
    if HasQrCode(t) then t else t.(qrCode := Some(ValidationUrlFor(t.validationToken)))
  }

  /** `mark_as_used` at time `now`: status used, the scan instant recorded,
      the scanner recorded only when one is given; then saved. */
  function MarkedUsed(t: TicketRecord, now: int, scannedByUser: Option<nat>): (r: TicketRecord)
    ensures r.status == Used && r.scannedAt == Some(now)
    ensures r.scannedBy == if scannedByUser.Some? then scannedByUser else t.scannedBy
  {
    Saved(t.(status := Used, scannedAt := Some(now), scannedBy := if scannedByUser.Some? then scannedByUser else t.scannedBy))
  }

  /** `is_scannable`. */
  predicate Scannable(t: TicketRecord)
  {
    t.status == Paid && t.isValid && t.scannedAt.None?
  }

  /** A booked ticket starts pending and valid, so it cannot be scanned
      until it is paid, and then it can. */
  lemma NewTicketNotScannableUntilPaid(id: nat, user: nat, event: nat, token: string, createdAt: int)
    ensures var t := Saved(NewTicket(id, user, event, token, createdAt));
            t.status == Pending && t.isValid && !Scannable(t) && Scannable(t.(status := Paid))
  {
  }

  /** After its first save a ticket's QR code is its validation URL. */
  lemma FirstSaveSetsQrToValidationUrl(id: nat, user: nat, event: nat, token: string, createdAt: int)
    ensures Saved(NewTicket(id, user, event, token, createdAt)).qrCode == Some(ValidationUrlFor(token))
  {
  }

  /** Saving is idempotent: a second save changes nothing. */
  lemma SaveIdempotent(t: TicketRecord)
    ensures Saved(Saved(t)) == Saved(t)
  {
  }

  /** A scan always leaves the ticket unscannable, whatever state it was in,
      and changes nothing but status, scan instant, scanner and a missing
      QR code. */
  lemma MarkedUsedIsFinal(t: TicketRecord, now: int, scanner: Option<nat>)
    ensures !Scannable(MarkedUsed(t, now, scanner))
    ensures var r := MarkedUsed(t, now, scanner);
            r.id == t.id && r.user == t.user && r.event == t.event && r.validationToken == t.validationToken
            && r.isValid == t.isValid && r.createdAt == t.createdAt
            && (HasQrCode(t) ==> r.qrCode == t.qrCode)
  {
  }

  /** `mark_as_used` has no guard: it can be applied to a used ticket again,
      which only moves the scan instant (and the scanner, if one is given). */
  lemma MarkAsUsedAgain(t: TicketRecord, first: int, second: int, scanner: Option<nat>)
    ensures MarkedUsed(MarkedUsed(t, first, scanner), second, None) == MarkedUsed(t, second, scanner)
  {
  }

  /** A ticket row the ORM updates in place. */
  class Ticket {
    var record: TicketRecord

    constructor (id: nat, user: nat, event: nat, token: string, createdAt: int)
      ensures record == NewTicket(id, user, event, token, createdAt)
    {
      record := NewTicket(id, user, event, token, createdAt);
    }

    method Save()
      modifies this
      ensures record == Saved(old(record))
    {
      if record.qrCode.None? || record.qrCode.value == "" {
        record := record.(qrCode := Some(ValidationUrlFor(record.validationToken)));
      }
    }

    method MarkAsUsed(now: int, scannedByUser: Option<nat>)
      modifies this
      ensures record == MarkedUsed(old(record), now, scannedByUser)
    {
      record := record.(status := Used, scannedAt := Some(now));
      if scannedByUser.Some? {
        record := record.(scannedBy := scannedByUser);
      }
      Save();
    }

    function IsScannable(): bool
      reads this
    {
      Scannable(record)
    }

    function ValidationUrl(): string
      reads this
    {
      ValidationUrlFor(record.validationToken)
    }
  }
}
