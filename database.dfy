/**
 * The in-memory store (nitrous-backend/database/db.go): five collections
 * that the handlers read and change directly, seeded once at start-up.
 *
 * `uuid.New()` and `time.Now()` are oracles: `uuid(n)` is what the n-th call
 * to `uuid.New()` during seeding returns, `clock(n)` what the n-th call to
 * `time.Now()` returns.
 */
module Database {
  import opened Seqs
  import opened Models

  class Store {
    var events: seq<Event>
    var categories: seq<Category>
    var journeys: seq<Journey>
    var merchItems: seq<MerchItem>
    var users: seq<User>

    /** `InitDB`: seed events, categories, journeys and merch; users start empty. */
    constructor (uuid: nat -> string, clock: nat -> Instant)
      ensures events == SeedEvents(uuid, clock)
      ensures categories == SeedCategories(uuid)
      ensures journeys == SeedJourneys(uuid, clock)
      ensures merchItems == SeedMerch(uuid)
      ensures users == []
      ensures Consistent()
    {
      events := SeedEvents(uuid, clock);
      categories := SeedCategories(uuid);
      journeys := SeedJourneys(uuid, clock);
      merchItems := SeedMerch(uuid);
      users := [];
      SeedSlots(uuid, clock);
    }

    /** The invariants the handlers keep: no journey overbooked, no email registered twice. */
    predicate Consistent()
      reads this
    {
      SlotsNonNegative(journeys) && Distinct(UserEmails(users))
    }
  }

  predicate SlotsNonNegative(js: seq<Journey>)
  {
    forall i :: 0 <= i < |js| ==> js[i].slotsLeft >= 0
  }

  /** `seedEvents`: uuid calls 0-5, clock calls 0-5; `CreatedAt` is left at the zero time. */
  function SeedEvents(uuid: nat -> string, clock: nat -> Instant): (es: seq<Event>)
    ensures |es| == 6
    ensures forall i :: 0 <= i < |es| ==>
      es[i].id == uuid(i) && es[i].createdAt == ZeroTime && es[i].thumbnailUrl == ""
  {
    [ Event(uuid(0), "NASCAR Daytona 500", "Daytona International Speedway · Florida",
            Add(clock(0), 10 * 24 * Hour), "15:00 UTC", true, "motorsport", "", ZeroTime),
      Event(uuid(1), "Dakar Rally — Stage 9", "Al Ula → Ha'il · Saudi Arabia",
            Add(clock(1), -2 * 24 * Hour), "09:00 UTC", false, "offroad", "", ZeroTime),
      Event(uuid(2), "World Dirt Track Championship", "Knob Noster · Missouri, USA",
            Add(clock(2), 5 * 24 * Hour), "18:00 UTC", true, "motorsport", "", ZeroTime),
      Event(uuid(3), "Speed Boat Cup — Finals", "Lake Como · Italy",
            Add(clock(3), 14 * 24 * Hour), "14:00 UTC", false, "water", "", ZeroTime),
      Event(uuid(4), "Red Bull Skydive Series — Rd. 3", "Interlaken Drop Zone · Switzerland",
            Add(clock(4), 20 * 24 * Hour), "11:30 UTC", false, "air", "", ZeroTime),
      Event(uuid(5), "Crop Duster Air Racing", "Bakersfield Airfield · California",
            Add(clock(5), 26 * 24 * Hour), "16:00 UTC", false, "air", "", ZeroTime) ]
  }

  /** `seedCategories`: uuid calls 6-9. */
  function SeedCategories(uuid: nat -> string): (cs: seq<Category>)
    ensures |cs| == 4
    ensures forall i :: 0 <= i < |cs| ==> cs[i].id == uuid(6 + i)
  {
    [ Category(uuid(6), "MOTORSPORT", "motorsport", "🏎️", 24, "NASCAR · F1 · Dirt · Rally", "cyan"),
      Category(uuid(7), "WATER", "water", "🌊", 8, "Speed Boats · Jet Ski · Surf", "blue"),
      Category(uuid(8), "AIR & SKY", "air", "🪂", 5, "Skydive · Air Race · Wing", "purple"),
      Category(uuid(9), "OFF-ROAD", "offroad", "🏔️", 12, "Dakar · Baja · Enduro", "orange") ]
  }

  const DaytonaDescription: string :=
    "Go behind the wall at Daytona 500. Watch pit stops up close, meet the crew chiefs, and ride the pace car on track."

  const DakarDescription: string :=
    "Ride a support vehicle through the Dakar stages. Sleep under the stars, eat with the team, and feel the dust."

  const SkydiveDescription: string :=
    "Jump with a Red Bull certified instructor at 15,000ft. Camera-equipped, full debrief, and a story you'll never forget."

  /** `seedJourneys`: uuid calls 10-12, clock calls 6-8; prices 2400, 5800 and 1200. */
  function SeedJourneys(uuid: nat -> string, clock: nat -> Instant): (js: seq<Journey>)
    ensures |js| == 3
    ensures forall i :: 0 <= i < |js| ==> js[i].id == uuid(10 + i) && js[i].slotsLeft > 0 && js[i].thumbnailUrl == ""
  {
    [ Journey(uuid(10), "DAYTONA PIT CREW EXPERIENCE", "MOTORSPORT · BEHIND THE SCENES",
              DaytonaDescription,
              "EXCLUSIVE", 12, Add(clock(6), 10 * 24 * Hour), Float64(0x40a2c00000000000), ""),
      Journey(uuid(11), "DAKAR DESERT CONVOY", "RALLY · DESERT EXPEDITION",
              DakarDescription,
              "MEMBERS ONLY", 6, Add(clock(7), 345 * 24 * Hour), Float64(0x40b6a80000000000), ""),
      Journey(uuid(12), "RED BULL TANDEM SKYDIVE", "AIR · EXTREME SPORT",
              SkydiveDescription,
              "LIMITED", 3, Add(clock(8), 20 * 24 * Hour), Float64(0x4092c00000000000), "") ]
  }

  /** `seedMerch`: uuid calls 13-18; prices 89, 42, 189, 249, 120 and 28. */
  function SeedMerch(uuid: nat -> string): (ms: seq<MerchItem>)
    ensures |ms| == 6
    ensures forall i :: 0 <= i < |ms| ==> ms[i].id == uuid(13 + i)
  {
    [ MerchItem(uuid(13), "Team Hoodie", "👕", Float64(0x4056400000000000), "apparel"),
      MerchItem(uuid(14), "NITROUS Cap", "🧢", Float64(0x4045000000000000), "apparel"),
      MerchItem(uuid(15), "Racing Jacket", "🏎️", Float64(0x4067a00000000000), "apparel"),
      MerchItem(uuid(16), "Pit Watch", "⌚", Float64(0x406f200000000000), "accessories"),
      MerchItem(uuid(17), "Gear Backpack", "🎒", Float64(0x405e000000000000), "accessories"),
      MerchItem(uuid(18), "Drop Keychain", "🏆", Float64(0x403c000000000000), "collectibles") ]
  }

  /** The seed sizes, and exactly two live events: the first and the third. */
  lemma SeedShape(uuid: nat -> string, clock: nat -> Instant)
    ensures |SeedEvents(uuid, clock)| == 6 && |SeedCategories(uuid)| == 4
    ensures |SeedJourneys(uuid, clock)| == 3 && |SeedMerch(uuid)| == 6
    ensures Filter(SeedEvents(uuid, clock), IsLive) == [SeedEvents(uuid, clock)[0], SeedEvents(uuid, clock)[2]]
  {
    var es := SeedEvents(uuid, clock);
    LiveOfSix(es);
  }

  /** Filtering six events of which only the first and the third are live. */
  lemma LiveOfSix(es: seq<Event>)
    requires |es| == 6 && es[0].isLive && !es[1].isLive && es[2].isLive
    requires !es[3].isLive && !es[4].isLive && !es[5].isLive
    ensures Filter(es, IsLive) == [es[0], es[2]]
  {
    assert es[..1][..0] == [];
    assert Filter(es[..1], IsLive) == [es[0]];
    assert es[..2][..1] == es[..1];
    assert Filter(es[..2], IsLive) == [es[0]];
    assert es[..3][..2] == es[..2];
    assert Filter(es[..3], IsLive) == [es[0], es[2]];
    assert es[..4][..3] == es[..3];
    assert Filter(es[..4], IsLive) == [es[0], es[2]];
    assert es[..5][..4] == es[..4];
    assert Filter(es[..5], IsLive) == [es[0], es[2]];
    assert es[..5] == es[..|es| - 1];
  }

  /** Category slugs are pairwise distinct and every seeded event's category is one of them. */
  lemma SeedCategoriesCoverEvents(uuid: nat -> string, clock: nat -> Instant)
    ensures Distinct(CategorySlugs(SeedCategories(uuid)))
    ensures forall e :: e in SeedEvents(uuid, clock) ==> e.category in CategorySlugs(SeedCategories(uuid))
  {
    var slugs := CategorySlugs(SeedCategories(uuid));
    assert slugs == ["motorsport", "water", "air", "offroad"];
  }

  /** The seeded journeys have 12, 6 and 3 slots, so no journey starts overbooked. */
  lemma SeedSlots(uuid: nat -> string, clock: nat -> Instant)
    ensures var js := SeedJourneys(uuid, clock);
      js[0].slotsLeft == 12 && js[1].slotsLeft == 6 && js[2].slotsLeft == 3
    ensures SlotsNonNegative(SeedJourneys(uuid, clock))
  {
  }

  /** Every id the seed hands out, in the order `uuid.New()` was called. */
  function SeedIds(uuid: nat -> string, clock: nat -> Instant): seq<string>
  {
    EventIds(SeedEvents(uuid, clock)) + CategoryIds(SeedCategories(uuid))
      + JourneyIds(SeedJourneys(uuid, clock)) + MerchIds(SeedMerch(uuid))
  }

  /** When `uuid.New()` never repeats itself, no two seeded entities share an id. */
  lemma SeedIdsDistinct(uuid: nat -> string, clock: nat -> Instant)
    requires forall m: nat, n: nat :: m != n ==> uuid(m) != uuid(n)
    ensures Distinct(SeedIds(uuid, clock))
  {
    var ids := SeedIds(uuid, clock);
    assert ids == seq(19, n requires 0 <= n < 19 => uuid(n));
  }
}
