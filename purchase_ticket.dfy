/** The ticket-purchase screen: one of three ticket types is chosen
    (general admission by default), the quantity is kept between 1 and 10 by
    the minus and plus buttons, and the total is the chosen type's price
    times the quantity. */
module PurchaseTicket {
  import opened Common

  datatype TicketType = TicketType(id: string, name: string, price: int)

  /** The types on offer, in display order. */
  const TicketTypes: seq<TicketType> := [
    TicketType("general", "General Admission", 99),
    TicketType("vip", "VIP Package", 199),
    TicketType("premium", "Premium Experience", 299)
  ]

  /** The type selected when the screen opens. */
  const DefaultTicketType := "general"

  const MinQuantity := 1
  const MaxQuantity := 10

  /** `ticketTypes.find(t => t.id === id)`: the first type with that id. */
  function FindTicketType(types: seq<TicketType>, id: string): (r: Option<TicketType>)
    ensures r.None? <==> forall k :: 0 <= k < |types| ==> types[k].id != id
    ensures r.Some? ==> r.value in types && r.value.id == id
  {
    if types == [] then None
    else if types[0].id == id then Some(types[0])
    else FindTicketType(types[1..], id)
  }

  /** `totalPrice`: the selected type's price times the quantity, or 0 when
      no type has the selected id. */
  function TotalPrice(selected: string, quantity: int): int
  {
    var t := FindTicketType(TicketTypes, selected);
    if t.Some? then t.value.price * quantity else 0
  }

  /** Each offered id selects its own price, and the screen opens at one
      general-admission ticket for 99. */
  lemma PricesByType()
    ensures TotalPrice("general", 1) == 99
    ensures forall q :: TotalPrice("vip", q) == 199 * q && TotalPrice("premium", q) == 299 * q
    ensures TotalPrice(DefaultTicketType, MinQuantity) == 99
  {
    assert TicketTypes[0].id == "general";
    assert TicketTypes[1].id == "vip" && TicketTypes[0].id != "vip";
    assert TicketTypes[2].id == "premium" && TicketTypes[0].id != "premium" && TicketTypes[1].id != "premium";
  }

  /** An id that no offered type has prices the order at 0, whatever the
      quantity. */
  lemma UnknownTypeCostsNothing(selected: string, quantity: int)
    requires selected != "general" && selected != "vip" && selected != "premium"
    ensures TotalPrice(selected, quantity) == 0
  {
    assert FindTicketType(TicketTypes[2..], selected) == FindTicketType([], selected);
  }

  /** `handleQuantityChange`: `Math.max(1, Math.min(10, quantity + change))`,
      that is, the new quantity clamped to 1..10. */
  function ClampQuantity(quantity: int, change: int): (r: int)
    ensures MinQuantity <= r <= MaxQuantity
    ensures MinQuantity <= quantity + change <= MaxQuantity ==> r == quantity + change
    ensures quantity + change < MinQuantity ==> r == MinQuantity
    ensures quantity + change > MaxQuantity ==> r == MaxQuantity
  {
    var capped := if quantity + change < MaxQuantity then quantity + change else MaxQuantity;
    if MinQuantity > capped then MinQuantity else capped
  }

  /** The quantity after the buttons are pressed with these changes in order. */
  function AfterChanges(quantity: int, changes: seq<int>): int
    decreases |changes|
  {
    if changes == [] then quantity else AfterChanges(ClampQuantity(quantity, changes[0]), changes[1..])
  }

  /** From the initial 1, no sequence of changes leaves 1..10. */
  lemma {:induction false} QuantityStaysInRange(quantity: int, changes: seq<int>)
    requires MinQuantity <= quantity <= MaxQuantity
    ensures MinQuantity <= AfterChanges(quantity, changes) <= MaxQuantity
    decreases |changes|
  {
    if changes != [] {
      QuantityStaysInRange(ClampQuantity(quantity, changes[0]), changes[1..]);
    }
  }

  /** The minus button is disabled at or below 1. */
  predicate DecrementDisabled(quantity: int)
  {
    quantity <= MinQuantity
  }

  /** The plus button is disabled at or above 10. */
  predicate IncrementDisabled(quantity: int)
  {
    quantity >= MaxQuantity
  }

  /** Within range, a button is disabled exactly where pressing it would
      change nothing, and otherwise it moves the quantity by one. */
  lemma ButtonsDisabledExactlyAtNoOps(quantity: int)
    requires MinQuantity <= quantity <= MaxQuantity
    ensures DecrementDisabled(quantity) <==> ClampQuantity(quantity, -1) == quantity
    ensures IncrementDisabled(quantity) <==> ClampQuantity(quantity, 1) == quantity
    ensures !DecrementDisabled(quantity) ==> ClampQuantity(quantity, -1) == quantity - 1
    ensures !IncrementDisabled(quantity) ==> ClampQuantity(quantity, 1) == quantity + 1
  {
  }

  /** Whatever the selection, an in-range order costs at most ten premium tickets. */
  lemma TotalPriceBounded(selected: string, quantity: int)
    requires MinQuantity <= quantity <= MaxQuantity
    ensures 0 <= TotalPrice(selected, quantity) <= MaxQuantity * 299
  {
    var t := FindTicketType(TicketTypes, selected);
    if t.Some? {
      var k :| 0 <= k < |TicketTypes| && TicketTypes[k] == t.value;
      assert 99 <= t.value.price <= 299;
    }
  }
}
