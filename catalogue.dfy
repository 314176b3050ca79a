/**
 * The category, journey and merch endpoints (nitrous-backend/handlers/other.go):
 * whole-collection listings, first-match lookups, and the one mutation,
 * booking a journey, which takes one of its remaining slots.
 */
module CatalogueHandlers {
  import opened Seqs
  import opened Models
  import opened Http
  import opened Database

  /** GET /categories: every category, with its count. */
  method GetCategories(db: Store) returns (r: Response<Listing<Category>>)
    ensures r.Ok? && r.value.items == NonNil(db.categories)
    ensures r.value.count == |r.value.items.Elems()|
  {
    r := Ok(Listing(NonNil(db.categories), |db.categories|));
  }

  /** GET /categories/:slug: the first category with that slug. */
  method GetCategoryBySlug(db: Store, slug: string) returns (r: Response<Category>)
    ensures var k := IndexOf(CategorySlugs(db.categories), slug);
      r == if k < 0 then NotFound("Category not found") else Ok(db.categories[k])
  {
    var categories := db.categories;
    var i := 0;
    while i < |categories|
      invariant 0 <= i <= |categories|
      invariant slug !in CategorySlugs(categories)[..i]
    {
      if categories[i].slug == slug {
        IndexOfIs(CategorySlugs(categories), slug, i);
        return Ok(categories[i]);
      }
      assert CategorySlugs(categories)[..i + 1] == CategorySlugs(categories)[..i] + [categories[i].slug];
      i := i + 1;
    }
    assert CategorySlugs(categories)[..i] == CategorySlugs(categories);
    return NotFound("Category not found");
  }

  /** GET /journeys: every journey, with its count. */
  method GetJourneys(db: Store) returns (r: Response<Listing<Journey>>)
    ensures r.Ok? && r.value.items == NonNil(db.journeys)
    ensures r.value.count == |r.value.items.Elems()|
  {
    r := Ok(Listing(NonNil(db.journeys), |db.journeys|));
  }

  /** GET /journeys/:id: the first journey with that id. */
  method GetJourneyByID(db: Store, id: string) returns (r: Response<Journey>)
    ensures var k := IndexOf(JourneyIds(db.journeys), id);
      r == if k < 0 then NotFound("Journey not found") else Ok(db.journeys[k])
  {
    var journeys := db.journeys;
    var i := 0;
    while i < |journeys|
      invariant 0 <= i <= |journeys|
      invariant id !in JourneyIds(journeys)[..i]
    {
      if journeys[i].id == id {
        IndexOfIs(JourneyIds(journeys), id, i);
        return Ok(journeys[i]);
      }
      assert JourneyIds(journeys)[..i + 1] == JourneyIds(journeys)[..i] + [journeys[i].id];
      i := i + 1;
    }
    assert JourneyIds(journeys)[..i] == JourneyIds(journeys);
    return NotFound("Journey not found");
  }

  /** The `{"message", "journey"}` body of a successful booking. */
  datatype Booked = Booked(message: string, journey: Journey)

  /** A booking's reply together with the journeys it leaves behind. */
  datatype Booking = Booking(response: Response<Booked>, journeys: seq<Journey>)

  /**
   * Booking the first journey with `id`: refused when it has no slot left,
   * otherwise that journey, and nothing else, loses exactly one slot.
   */
  function Book(js: seq<Journey>, id: string): (b: Booking)
    ensures var k := IndexOf(JourneyIds(js), id);
      if k < 0 then b == Booking(NotFound("Journey not found"), js)
      else if js[k].slotsLeft <= 0 then b == Booking(InvalidState("No slots available"), js)
      else
        && |b.journeys| == |js|
        && (forall i :: 0 <= i < |js| && i != k ==> b.journeys[i] == js[i])
        && b.journeys[k].slotsLeft == js[k].slotsLeft - 1
        && b.journeys[k].(slotsLeft := js[k].slotsLeft) == js[k]
        && b.response == Ok(Booked("Journey booked successfully", b.journeys[k]))
  {
    var k := IndexOf(JourneyIds(js), id);
    if k < 0 then Booking(NotFound("Journey not found"), js)
    else if js[k].slotsLeft <= 0 then Booking(InvalidState("No slots available"), js)
    else
      var booked := js[k].(slotsLeft := js[k].slotsLeft - 1);
      Booking(Ok(Booked("Journey booked successfully", booked)), js[k := booked])
  }

  /** POST /journeys/:id/book. */
  method BookJourney(db: Store, id: string) returns (r: Response<Booked>)
    modifies db`journeys
    ensures Booking(r, db.journeys) == Book(old(db.journeys), id)
    ensures old(db.Consistent()) ==> db.Consistent()
  {
    var journeys := db.journeys;
    var i := 0;
    while i < |journeys|
      invariant 0 <= i <= |journeys|
      invariant id !in JourneyIds(journeys)[..i]
      invariant db.journeys == journeys
    {
      var journey := journeys[i];
      if journey.id == id {
        IndexOfIs(JourneyIds(journeys), id, i);
        if journey.slotsLeft <= 0 {
          return InvalidState("No slots available");
        }
        db.journeys := journeys[i := journeys[i].(slotsLeft := journeys[i].slotsLeft - 1)];
        BookKeepsSlotsNonNegative(journeys, id);
        return Ok(Booked("Journey booked successfully", db.journeys[i]));
      }
      assert JourneyIds(journeys)[..i + 1] == JourneyIds(journeys)[..i] + [journeys[i].id];
      i := i + 1;
    }
    assert JourneyIds(journeys)[..i] == JourneyIds(journeys);
    return NotFound("Journey not found");
  }

  /** No booking drives a journey's slots below zero, and no booking changes a journey's id. */
  lemma BookKeepsSlotsNonNegative(js: seq<Journey>, id: string)
    ensures SlotsNonNegative(js) ==> SlotsNonNegative(Book(js, id).journeys)
    ensures JourneyIds(Book(js, id).journeys) == JourneyIds(js)
  {
    var b := Book(js, id);
    assert JourneyIds(b.journeys) == JourneyIds(js);
  }

  /** What `n` bookings of the same journey, one after the other, add up to. */
  datatype Tally = Tally(successes: nat, journeys: seq<Journey>)

  function BookTimes(js: seq<Journey>, id: string, n: nat): Tally
    decreases n
  {
    if n == 0 then Tally(0, js)
    else
      var b := Book(js, id);
      var rest := BookTimes(b.journeys, id, n - 1);
      Tally(rest.successes + if b.response.Ok? then 1 else 0, rest.journeys)
  }

  function Min(a: int, b: int): int { if a <= b then a else b }

  /**
   * Starting from `s >= 0` slots, `n` bookings in a row succeed `min(n, s)`
   * times and leave `s - min(n, s)` slots; once the slots are used up, the
   * next booking is refused with InvalidState.
   */
  lemma {:induction false} RepeatedBookings(js: seq<Journey>, id: string, n: nat)
    requires id in JourneyIds(js)
    requires js[IndexOf(JourneyIds(js), id)].slotsLeft >= 0
    ensures var k := IndexOf(JourneyIds(js), id);
      var t := BookTimes(js, id, n);
      var s := js[k].slotsLeft;
      && JourneyIds(t.journeys) == JourneyIds(js)
      && t.successes == Min(n, s)
      && t.journeys[k].slotsLeft == s - Min(n, s)
      && (n >= s ==> Book(t.journeys, id).response == InvalidState("No slots available"))
    decreases n
  {
    var k := IndexOf(JourneyIds(js), id);
    var s := js[k].slotsLeft;
    if n == 0 {
      if s == 0 {
        assert Book(js, id).response == InvalidState("No slots available");
      }
    } else {
      var b := Book(js, id);
      BookKeepsSlotsNonNegative(js, id);
      assert IndexOf(JourneyIds(b.journeys), id) == k;
      RepeatedBookings(b.journeys, id, n - 1);
    }
  }

  /** GET /merch: every merch item, with its count. */
  method GetMerchItems(db: Store) returns (r: Response<Listing<MerchItem>>)
    ensures r.Ok? && r.value.items == NonNil(db.merchItems)
    ensures r.value.count == |r.value.items.Elems()|
  {
    r := Ok(Listing(NonNil(db.merchItems), |db.merchItems|));
  }

  /** GET /merch/:id: the first merch item with that id. */
  method GetMerchItemByID(db: Store, id: string) returns (r: Response<MerchItem>)
    ensures var k := IndexOf(MerchIds(db.merchItems), id);
      r == if k < 0 then NotFound("Merch item not found") else Ok(db.merchItems[k])
  {
    var items := db.merchItems;
    var i := 0;
    while i < |items|
      invariant 0 <= i <= |items|
      invariant id !in MerchIds(items)[..i]
    {
      if items[i].id == id {
        IndexOfIs(MerchIds(items), id, i);
        return Ok(items[i]);
      }
      assert MerchIds(items)[..i + 1] == MerchIds(items)[..i] + [items[i].id];
      i := i + 1;
    }
    assert MerchIds(items)[..i] == MerchIds(items);
    return NotFound("Merch item not found");
  }
}
