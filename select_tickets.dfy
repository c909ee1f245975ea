/** The seat-selection screen: tapping a seat selects or deselects it, at
    most eight seats can be held at once, every seat costs the default
    price, and continuing forwards the selection to checkout.

    The seat map itself is drawn at random and is not modelled; a seat is
    its id, such as "C7". */
module SelectTickets {
  import opened Common

  /** The most seats one order may hold. */
  const MaxSeats := 8
  /** The price of every seat on the map. */
  const SeatPrice := 299

  /** A selected seat's key is its id. */
  function SeatKey(id: string): string
  {
    id
  }

  /** No id listed twice. */
  predicate Distinct(s: seq<string>)
  {
    forall i, j :: 0 <= i < j < |s| ==> s[i] != s[j]
  }

  /** What the screen can be holding: at most eight distinct seats. */
  predicate ValidSelection(s: seq<string>)
  {
    |s| <= MaxSeats && Distinct(s)
  }

  /** `handleSeatSelect`'s updater: a selected seat is deselected; another
      seat is appended when fewer than eight are held, and ignored otherwise. */
  function SeatToggled(prev: seq<string>, seatId: string): (r: seq<string>)
    ensures seatId in prev ==> seatId !in r && forall x :: x in r <==> x in prev && x != seatId
    ensures seatId !in prev && |prev| < MaxSeats ==> r == prev + [seatId]
    ensures seatId !in prev && |prev| >= MaxSeats ==> r == prev
  {
    if seatId in prev then RemoveById(prev, SeatKey, seatId)
    else if |prev| < MaxSeats then prev + [seatId]
    else prev
  }

  /** Filtering keeps a list free of repeats. */
  lemma {:induction false} RemoveKeepsDistinct(s: seq<string>, id: string)
    requires Distinct(s)
    ensures Distinct(RemoveById(s, SeatKey, id))
    decreases |s|
  {
    if s != [] {
      RemoveKeepsDistinct(s[1..], id);
      var tail := RemoveById(s[1..], SeatKey, id);
      assert s[0] !in s[1..];
      assert s[0] !in tail;
    }
  }

  /** Every toggle keeps the selection within the cap and free of repeats. */
  lemma ToggleKeepsValid(prev: seq<string>, seatId: string)
    requires ValidSelection(prev)
    ensures ValidSelection(SeatToggled(prev, seatId))
  {
    if seatId in prev {
      RemoveKeepsDistinct(prev, seatId);
    }
  }

  /** The selection after tapping `taps` in order, starting from `start`. */
  function AfterTaps(start: seq<string>, taps: seq<string>): seq<string>
    decreases |taps|
  {
    if taps == [] then start else AfterTaps(SeatToggled(start, taps[0]), taps[1..])
  }

  /** From the empty selection, no sequence of taps ever holds more than
      eight seats or the same seat twice. */
  lemma {:induction false} AnyTapsKeepValid(start: seq<string>, taps: seq<string>)
    requires ValidSelection(start)
    ensures ValidSelection(AfterTaps(start, taps))
    decreases |taps|
  {
    if taps != [] {
      ToggleKeepsValid(start, taps[0]);
      AnyTapsKeepValid(SeatToggled(start, taps[0]), taps[1..]);
    }
  }

  lemma TapsFromEmptyAreValid(taps: seq<string>)
    ensures ValidSelection(AfterTaps([], taps))
  {
    AnyTapsKeepValid([], taps);
  }

  /** Tapping an unselected seat twice, while fewer than eight are held,
      gives back exactly the previous selection. */
  lemma ToggleTwiceRestores(prev: seq<string>, seatId: string)
    requires seatId !in prev && |prev| < MaxSeats
    ensures SeatToggled(SeatToggled(prev, seatId), seatId) == prev
  {
    RemoveByIdConcat(prev, [seatId], SeatKey, seatId);
    RemoveAbsentId(prev, SeatKey, seatId);
  }

  /** At the cap a new seat cannot be added, however often it is tapped. */
  lemma FullSelectionIgnoresNewSeats(prev: seq<string>, taps: seq<string>)
    requires |prev| == MaxSeats
    requires forall i :: 0 <= i < |taps| ==> taps[i] !in prev
    ensures AfterTaps(prev, taps) == prev
    decreases |taps|
  {
    if taps != [] {
      FullSelectionIgnoresNewSeats(prev, taps[1..]);
    }
  }

  /** `totalPrice`: every seat at the default price. */
  function TotalPrice(seats: seq<string>): int
  {
    |seats| * SeatPrice
  }

  /** A valid selection never costs more than eight seats. */
  lemma TotalPriceBounded(seats: seq<string>)
    requires ValidSelection(seats)
    ensures 0 <= TotalPrice(seats) <= MaxSeats * SeatPrice
  {
  }

  /** One line of the checkout request. */
  datatype CheckoutSeat = CheckoutSeat(id: string, price: int, section: string)

  /** `handleContinue`: nothing happens with no seat selected; otherwise
      checkout receives one line per seat, in selection order, each at the
      default price in the Lower Bowl. */
  function ContinueTo(seats: seq<string>): (r: Option<seq<CheckoutSeat>>)
    ensures r.None? <==> seats == []
    ensures r.Some? ==> |r.value| == |seats|
                        && forall i :: 0 <= i < |seats| ==> r.value[i] == CheckoutSeat(seats[i], SeatPrice, "Lower Bowl")
  {
    if |seats| > 0 then Some(seq(|seats|, i requires 0 <= i < |seats| => CheckoutSeat(seats[i], SeatPrice, "Lower Bowl")))
    else None
  }

  /** The checkout lines add up to the screen's total. */
  function LinesTotal(lines: seq<CheckoutSeat>): int
  {
    if lines == [] then 0 else lines[0].price + LinesTotal(lines[1..])
  }

  lemma {:induction false} ContinueMatchesTotal(seats: seq<string>)
    requires seats != []
    ensures LinesTotal(ContinueTo(seats).value) == TotalPrice(seats)
    decreases |seats|
  {
    var lines := ContinueTo(seats).value;
    if |seats| > 1 {
      ContinueMatchesTotal(seats[1..]);
      assert lines[1..] == ContinueTo(seats[1..]).value;
    } else {
      assert lines[1..] == [];
    }
  }

  /** The screen's selection state. */
  class SeatSelection {
    var selectedSeats: seq<string>

    constructor ()
      ensures selectedSeats == []
    {
      selectedSeats := [];
    }

    /** A tap on a seat. */
    method HandleSeatSelect(seatId: string)
      modifies this
      ensures selectedSeats == SeatToggled(old(selectedSeats), seatId)
      ensures old(ValidSelection(selectedSeats)) ==> ValidSelection(selectedSeats)
    {
      if ValidSelection(selectedSeats) {
        ToggleKeepsValid(selectedSeats, seatId);
      }
      if seatId in selectedSeats {
        selectedSeats := RemoveById(selectedSeats, SeatKey, seatId);
      } else if |selectedSeats| < MaxSeats {
        selectedSeats := selectedSeats + [seatId];
      }
    }
  }
}
