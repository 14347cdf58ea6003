/** The ticket booking app (Assignment1/TicketBookingApp/App.js): the
    provider's booking list, the booking details screen (default selection,
    quantity stepper, total), the payment screen's discount and the search
    and filter screen. */
module TicketBooking {
  import opened Collections
  import opened Text

  /** A bookable item. Movies have showtimes, events a date, trips a
      departure; movies and trips have seats. Picture, duration, rating,
      location and description are presentation and are not modelled. */
  datatype Item = Item(
    id: string, kind: string, title: string, price: real,
    showtimes: Option<seq<string>>, seats: Option<seq<string>>,
    departure: Option<string>, date: Option<string>)

  /** What "Book Now" records. The time and the seat are `null` (`None`)
      when the picker's placeholder was chosen. */
  datatype Details = Details(time: Option<string>, seat: Option<string>, quantity: int, totalPrice: real)

  /** A booking; its id `String(n)` is kept as the number `n`, and its
      `new Date().toISOString()` timestamp is an input. */
  datatype Booking = Booking(id: nat, item: Item, details: Details, status: string, timestamp: string)

  datatype Profile = Profile(name: string, email: string)

  const Catalogue: seq<Item> := [
    Item("1", "Movie", "Neon Shadows", 15.0, Some(["16:00", "19:00"]), Some(["A1", "A2", "B1", "B2"]), None, None),
    Item("2", "Event", "Glow Fest", 40.0, None, None, None, Some("2025-04-25")),
    Item("3", "Travel", "Flight to Bali", 500.0, None, Some(["F1", "F2", "F3"]), Some("2025-06-15 09:00"), None),
    Item("4", "Movie", "Echoes of Time", 13.0, Some(["18:00", "21:00"]), Some(["C1", "C2", "D1", "D2"]), None, None),
    Item("5", "Event", "Art Expo", 25.0, None, None, None, Some("2025-05-10")),
    Item("6", "Travel", "Train to Alps", 120.0, None, Some(["E1", "E2"]), Some("2025-07-01 07:30"), None)
  ]

  // ---------------------------------------------------------------------
  // Booking list

  /** Bookings are numbered from the newest down to 1. */
  predicate SequentialIds(bookings: seq<Booking>)
  {
    forall i :: 0 <= i < |bookings| ==> bookings[i].id == |bookings| - i
  }

  /** Sequential numbering gives every booking its own id. */
  lemma SequentialIdsDistinct(bookings: seq<Booking>)
    requires SequentialIds(bookings)
    ensures forall i, j :: 0 <= i < j < |bookings| ==> bookings[i].id != bookings[j].id
    ensures forall i :: 0 <= i < |bookings| ==> 1 <= bookings[i].id <= |bookings|
  {
  }

  /** `bookTicket` puts the new booking first, numbered one past the
      current count, which keeps the numbering sequential. */
  lemma BookKeepsSequential(bookings: seq<Booking>, item: Item, details: Details, timestamp: string)
    requires SequentialIds(bookings)
    ensures SequentialIds([Booking(|bookings| + 1, item, details, "Upcoming", timestamp)] + bookings)
  {
    var b := [Booking(|bookings| + 1, item, details, "Upcoming", timestamp)] + bookings;
    forall i | 0 <= i < |b| ensures b[i].id == |b| - i {
      if i > 0 {
        assert b[i] == bookings[i - 1];
      }
    }
  }

  /** The provider's state. */
  class TicketProvider {
    var user: Profile
    var bookings: seq<Booking>
    const items: seq<Item>

    ghost predicate Valid()
      reads this
    {
      SequentialIds(bookings)
    }

    constructor ()
      ensures user == Profile("Maya Lee", "maya@example.com")
      ensures bookings == [] && items == Catalogue
      ensures Valid()
    {
      user := Profile("Maya Lee", "maya@example.com");
      bookings := [];
      items := Catalogue;
    }

    method SetUser(u: Profile)
      modifies this
      ensures user == u && bookings == old(bookings)
    {
      user := u;
    }

    /** `bookTicket(item, details)`. */
    method BookTicket(item: Item, details: Details, timestamp: string)
      modifies this
      ensures bookings == [Booking(|old(bookings)| + 1, item, details, "Upcoming", timestamp)] + old(bookings)
      ensures user == old(user)
      ensures old(Valid()) ==> Valid()
    {
      if Valid() {
        BookKeepsSequential(bookings, item, details, timestamp);
      }
      bookings := [Booking(|bookings| + 1, item, details, "Upcoming", timestamp)] + bookings;
    }
  }

  // ---------------------------------------------------------------------
  // Booking details screen

  /** JavaScript's `a || b` on an optional string: `a` unless it is missing
      or empty. */
  function OrElse(a: Option<string>, b: string): (r: string)
    ensures a.Some? && a.value != [] ==> r == a.value
    ensures !(a.Some? && a.value != []) ==> r == b
  {
    if a.Some? && a.value != [] then a.value else b
  }

  /** `list?.[0]`: the first entry, when there is a list and it is not
      empty. */
  function First(list: Option<seq<string>>): (r: Option<string>)
    ensures r.Some? <==> list.Some? && |list.value| > 0
    ensures r.Some? ==> r.value == list.value[0]
  {
    if list.Some? && |list.value| > 0 then Some(list.value[0]) else None
  }

  /** A value `||` accepts: present and not empty. */
  predicate Usable(a: Option<string>)
  {
    a.Some? && a.value != []
  }

  /** The initial time: the first showtime, else the departure, else the
      date, else empty. */
  function DefaultTime(item: Item): string
  {
    OrElse(First(item.showtimes), OrElse(item.departure, OrElse(item.date, "")))
  }

  /** The default time is the first of showtime, departure and date that is
      present and not empty, and empty only when none is. */
  lemma DefaultTimeSpec(item: Item)
    ensures Usable(First(item.showtimes)) ==> DefaultTime(item) == item.showtimes.value[0]
    ensures !Usable(First(item.showtimes)) && Usable(item.departure) ==> DefaultTime(item) == item.departure.value
    ensures !Usable(First(item.showtimes)) && !Usable(item.departure) && Usable(item.date) ==>
      DefaultTime(item) == item.date.value
    ensures DefaultTime(item) == [] <==> !Usable(First(item.showtimes)) && !Usable(item.departure) && !Usable(item.date)
  {
  }

  /** The initial seat: the first seat, else none (`null`). */
  function DefaultSeat(item: Item): (r: Option<string>)
    ensures r.Some? <==> Usable(First(item.seats))
    ensures r.Some? ==> r.value == item.seats.value[0]
  {
    if Usable(First(item.seats)) then First(item.seats) else None
  }

  /** Every catalogue item opens with a time, and with a seat exactly when
      it has seats. */
  lemma CatalogueDefaults()
    ensures forall i :: 0 <= i < |Catalogue| ==> DefaultTime(Catalogue[i]) != []
    ensures forall i :: 0 <= i < |Catalogue| ==> (DefaultSeat(Catalogue[i]).Some? <==> Catalogue[i].seats.Some?)
  {
    forall i | 0 <= i < |Catalogue| ensures DefaultTime(Catalogue[i]) != [] {
      DefaultTimeSpec(Catalogue[i]);
    }
  }

  /** `item.price * quantity`. */
  function TotalPrice(item: Item, quantity: int): real
  {
    item.price * quantity as real
  }

  /** The "-" button: only above 1. */
  function Decrement(quantity: int): (r: int)
    ensures quantity > 1 ==> r == quantity - 1
    ensures quantity <= 1 ==> r == quantity
  {
    if quantity > 1 then quantity - 1 else quantity
  }

  /** The stepper never leaves the positive numbers, and "+" undoes "-"
      except at 1, where "-" does nothing; each step moves the total by one
      ticket's price. */
  lemma StepperSpec(item: Item, quantity: int)
    requires quantity >= 1
    ensures Decrement(quantity) >= 1 && quantity + 1 >= 1
    ensures Decrement(quantity + 1) == quantity
    ensures quantity == 1 <==> Decrement(quantity) == quantity
    ensures TotalPrice(item, quantity + 1) == TotalPrice(item, quantity) + item.price
    ensures quantity > 1 ==> TotalPrice(item, Decrement(quantity)) == TotalPrice(item, quantity) - item.price
  {
    assert TotalPrice(item, quantity + 1) == item.price * quantity as real + item.price * 1.0;
    if quantity > 1 {
      assert TotalPrice(item, quantity - 1) == item.price * quantity as real - item.price * 1.0;
    }
  }

  /** The booking details screen for one item. */
  class BookingScreen {
    const item: Item
    var selectedTime: Option<string>
    var selectedSeat: Option<string>
    var quantity: int

    ghost predicate Valid()
      reads this
    {
      quantity >= 1
    }

    constructor (item: Item)
      ensures this.item == item
      ensures selectedTime == Some(DefaultTime(item)) && selectedSeat == DefaultSeat(item) && quantity == 1
      ensures Valid()
    {
      this.item := item;
      selectedTime := Some(DefaultTime(item));
      selectedSeat := DefaultSeat(item);
      quantity := 1;
    }

    method Minus()
      modifies this
      ensures quantity == Decrement(old(quantity))
      ensures selectedTime == old(selectedTime) && selectedSeat == old(selectedSeat)
      ensures old(Valid()) ==> Valid()
    {
      if quantity > 1 {
        quantity := quantity - 1;
      }
    }

    method Plus()
      modifies this
      ensures quantity == old(quantity) + 1
      ensures selectedTime == old(selectedTime) && selectedSeat == old(selectedSeat)
      ensures old(Valid()) ==> Valid()
    {
      quantity := quantity + 1;
    }

    /** The time picker; its placeholder sets `null` (`None`). */
    method SelectTime(time: Option<string>)
      modifies this
      ensures selectedTime == time && selectedSeat == old(selectedSeat) && quantity == old(quantity)
    {
      selectedTime := time;
    }

    /** The seat picker; its placeholder sets `null` (`None`). */
    method SelectSeat(seat: Option<string>)
      modifies this
      ensures selectedSeat == seat && selectedTime == old(selectedTime) && quantity == old(quantity)
    {
      selectedSeat := seat;
    }

    /** `handleBook`: books the item with the current selection and its
      total, and returns the details handed to the payment screen. */
    method HandleBook(provider: TicketProvider, timestamp: string) returns (details: Details)
      modifies provider
      ensures details == Details(selectedTime, selectedSeat, quantity, TotalPrice(item, quantity))
      ensures provider.bookings == [Booking(|old(provider.bookings)| + 1, item, details, "Upcoming", timestamp)]
        + old(provider.bookings)
      ensures provider.user == old(provider.user)
      ensures old(provider.Valid()) ==> provider.Valid()
    {
      details := Details(selectedTime, selectedSeat, quantity, TotalPrice(item, quantity));
      provider.BookTicket(item, details, timestamp);
    }
  }

  // ---------------------------------------------------------------------
  // Payment screen

  /** 20% off for the code "TICKA20", nothing otherwise. */
  function Discount(code: string): (d: real)
    ensures d == 0.2 <==> code == "TICKA20"
    ensures d == 0.0 <==> code != "TICKA20"
  {
    if code == "TICKA20" then 0.2 else 0.0
  }

  function FinalPrice(totalPrice: real, code: string): real
  {
    totalPrice * (1.0 - Discount(code))
  }

  /** The final price never exceeds a non-negative total nor goes below 0;
      it is the total for any other code and four fifths of it for the
      code. */
  lemma FinalPriceSpec(totalPrice: real, code: string)
    ensures code != "TICKA20" ==> FinalPrice(totalPrice, code) == totalPrice
    ensures code == "TICKA20" ==> FinalPrice(totalPrice, code) == totalPrice * 0.8
    ensures totalPrice >= 0.0 ==> 0.0 <= FinalPrice(totalPrice, code) <= totalPrice
  {
  }

  // ---------------------------------------------------------------------
  // Search and filter screen

  /** The type picker: a type, `'All'`, or nothing picked (`null`). */
  predicate TypeMatches(typeFilter: Option<string>, kind: string)
  {
    typeFilter.Some? && (typeFilter.value == "All" || typeFilter.value == kind)
  }

  /** The text matches the title or the type, ignoring ASCII case. */
  predicate TextMatches(item: Item, search: string)
  {
    Contains(ToLower(item.title), ToLower(search)) || Contains(ToLower(item.kind), ToLower(search))
  }

  function SearchItems(items: seq<Item>, search: string, typeFilter: Option<string>): seq<Item>
  {
    Filter(items, (item: Item) => TextMatches(item, search) && TypeMatches(typeFilter, item.kind))
  }

  /** An item is listed exactly when the text matches its title or type and
      the picked type is `'All'` or its own; the list keeps the catalogue's
      order. */
  lemma SearchSpec(items: seq<Item>, search: string, typeFilter: Option<string>, more: seq<Item>)
    ensures forall i :: 0 <= i < |SearchItems(items, search, typeFilter)| ==>
      var it := SearchItems(items, search, typeFilter)[i];
      it in items && TextMatches(it, search) && TypeMatches(typeFilter, it.kind)
    ensures forall i :: 0 <= i < |items| && TextMatches(items[i], search) && TypeMatches(typeFilter, items[i].kind) ==>
      items[i] in SearchItems(items, search, typeFilter)
    ensures SearchItems(items + more, search, typeFilter)
      == SearchItems(items, search, typeFilter) + SearchItems(more, search, typeFilter)
  {
    var p := (item: Item) => TextMatches(item, search) && TypeMatches(typeFilter, item.kind);
    FilterElements(items, p);
    FilterAppend(items, more, p);
  }

  /** With the picker cleared nothing is listed; with no text and `'All'`
      everything is. */
  lemma SearchEdges(items: seq<Item>, search: string)
    ensures SearchItems(items, search, None) == []
    ensures SearchItems(items, "", Some("All")) == items
  {
    FilterNone(items, (item: Item) => TextMatches(item, search) && TypeMatches(None, item.kind));
    forall i | 0 <= i < |items| ensures TextMatches(items[i], "") {
      ContainsEmpty(ToLower(items[i].title));
    }
    FilterAll(items, (item: Item) => TextMatches(item, "") && TypeMatches(Some("All"), item.kind));
  }
}
