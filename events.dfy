/**
 * The event endpoints (nitrous-backend/handlers/events.go). Each handler
 * reads the store's events once, as Go's `range` does, scans them in
 * order, and either answers from what it found or replaces the events.
 */
module EventHandlers {
  import opened Seqs
  import opened Models
  import opened Http
  import opened Database

  /**
   * GET /events?category=c. With a category, the events of that category in
   * store order, starting from a nil slice; without one, the store's own slice.
   */
  method GetEvents(db: Store, category: string) returns (r: Response<Listing<Event>>)
    ensures r.Ok?
    ensures r.value.items.Elems() ==
      if category == "" then db.events else Filter(db.events, InCategory(category))
    ensures r.value.items.Nil? <==> category != "" && r.value.items.Elems() == []
    ensures r.value.count == |r.value.items.Elems()|
  {
    var filtered: Slice<Event> := Nil;
    if category != "" {
      var events := db.events;
      var i := 0;
      while i < |events|
        invariant 0 <= i <= |events|
        invariant filtered.Elems() == Filter(events[..i], InCategory(category))
        invariant filtered.Nil? <==> filtered.Elems() == []
      {
        assert events[..i + 1][..i] == events[..i];
        var event := events[i];
        if event.category == category {
          filtered := NonNil(filtered.Elems() + [event]);
        }
        i := i + 1;
      }
      assert events[..i] == events;
    } else {
      filtered := NonNil(db.events);
    }
    r := Ok(Listing(filtered, |filtered.Elems()|));
  }

  /** GET /events/live: the live events in store order, starting from a nil slice. */
  method GetLiveEvents(db: Store) returns (r: Response<Listing<Event>>)
    ensures r.Ok?
    ensures r.value.items.Elems() == Filter(db.events, IsLive)
    ensures r.value.items.Nil? <==> r.value.items.Elems() == []
    ensures r.value.count == |r.value.items.Elems()|
  {
    var live: Slice<Event> := Nil;
    var events := db.events;
    var i := 0;
    while i < |events|
      invariant 0 <= i <= |events|
      invariant live.Elems() == Filter(events[..i], IsLive)
      invariant live.Nil? <==> live.Elems() == []
    {
      assert events[..i + 1][..i] == events[..i];
      var event := events[i];
      if event.isLive {
        live := NonNil(live.Elems() + [event]);
      }
      i := i + 1;
    }
    assert events[..i] == events;
    r := Ok(Listing(live, |live.Elems()|));
  }

  /** GET /events/:id: the first event with that id. */
  method GetEventByID(db: Store, id: string) returns (r: Response<Event>)
    ensures var k := IndexOf(EventIds(db.events), id);
      r == if k < 0 then NotFound("Event not found") else Ok(db.events[k])
  {
    var events := db.events;
    var i := 0;
    while i < |events|
      invariant 0 <= i <= |events|
      invariant id !in EventIds(events)[..i]
    {
      if events[i].id == id {
        IndexOfIs(EventIds(events), id, i);
        return Ok(events[i]);
      }
      assert EventIds(events)[..i + 1] == EventIds(events)[..i] + [events[i].id];
      i := i + 1;
    }
    assert EventIds(events)[..i] == EventIds(events);
    return NotFound("Event not found");
  }

  /**
   * POST /events: the decoded event gets a fresh id and the current time as
   * its creation time, whatever the client sent, and goes at the end.
   */
  method CreateEvent(db: Store, body: Payload<Event>, newId: string, now: Instant) returns (r: Response<Event>)
    modifies db`events
    ensures old(db.Consistent()) ==> db.Consistent()
    ensures body.Undecodable? ==> r == BadRequest(Malformed(body.message)) && db.events == old(db.events)
    ensures body.Decoded? ==>
      var e := body.value.(id := newId, createdAt := now);
      r == Created(e) && db.events == old(db.events) + [e]
  {
    if body.Undecodable? {
      return BadRequest(Malformed(body.message));
    }
    var newEvent := body.value;
    newEvent := newEvent.(id := newId);
    newEvent := newEvent.(createdAt := now);
    db.events := db.events + [newEvent];
    r := Created(newEvent);
  }

  /**
   * PUT /events/:id: the decoded event replaces the first event with that id,
   * keeping its id and creation time.
   */
  method UpdateEvent(db: Store, id: string, body: Payload<Event>) returns (r: Response<Event>)
    modifies db`events
    ensures old(db.Consistent()) ==> db.Consistent()
    ensures body.Undecodable? ==> r == BadRequest(Malformed(body.message)) && db.events == old(db.events)
    ensures body.Decoded? ==>
      var k := IndexOf(EventIds(old(db.events)), id);
      if k < 0 then r == NotFound("Event not found") && db.events == old(db.events)
      else
        var e := body.value.(id := id, createdAt := old(db.events)[k].createdAt);
        r == Ok(e) && db.events == old(db.events)[k := e]
  {
    if body.Undecodable? {
      return BadRequest(Malformed(body.message));
    }
    var updatedEvent := body.value;
    var events := db.events;
    var i := 0;
    while i < |events|
      invariant 0 <= i <= |events|
      invariant id !in EventIds(events)[..i]
      invariant db.events == events
    {
      var event := events[i];
      if event.id == id {
        IndexOfIs(EventIds(events), id, i);
        updatedEvent := updatedEvent.(id := id, createdAt := event.createdAt);
        db.events := events[i := updatedEvent];
        return Ok(updatedEvent);
      }
      assert EventIds(events)[..i + 1] == EventIds(events)[..i] + [events[i].id];
      i := i + 1;
    }
    assert EventIds(events)[..i] == EventIds(events);
    return NotFound("Event not found");
  }

  /** DELETE /events/:id: removes the first event with that id, keeping the others in order. */
  method DeleteEvent(db: Store, id: string) returns (r: Response<string>)
    modifies db`events
    ensures old(db.Consistent()) ==> db.Consistent()
    ensures var k := IndexOf(EventIds(old(db.events)), id);
      if k < 0 then r == NotFound("Event not found") && db.events == old(db.events)
      else r == Ok("Event deleted") && db.events == old(db.events)[..k] + old(db.events)[k + 1..]
  {
    var events := db.events;
    var i := 0;
    while i < |events|
      invariant 0 <= i <= |events|
      invariant id !in EventIds(events)[..i]
      invariant db.events == events
    {
      if events[i].id == id {
        IndexOfIs(EventIds(events), id, i);
        db.events := events[..i] + events[i + 1..];
        return Ok("Event deleted");
      }
      assert EventIds(events)[..i + 1] == EventIds(events)[..i] + [events[i].id];
      i := i + 1;
    }
    assert EventIds(events)[..i] == EventIds(events);
    return NotFound("Event not found");
  }

  /**
   * A created event is listed after every earlier event of the same listing,
   * and only if it matches. `Filter` takes its last element off first, so
   * this is one unfolding of its definition.
   */
  lemma CreatedEventListedLast(s: seq<Event>, e: Event, p: Event -> bool)
    ensures Filter(s + [e], p) == Filter(s, p) + if p(e) then [e] else []
  {
    FilterAppend(s, [e], p);
    FilterSingleton(e, p);
  }

  /** With a fresh id, the created event is found by it, and ids stay distinct. */
  lemma CreatedEventIsFound(s: seq<Event>, e: Event)
    requires e.id !in EventIds(s)
    ensures IndexOf(EventIds(s + [e]), e.id) == |s|
    ensures Distinct(EventIds(s)) ==> Distinct(EventIds(s + [e]))
  {
    var ids := EventIds(s + [e]);
    assert ids == EventIds(s) + [e.id];
    assert ids[..|s|] == EventIds(s);
    IndexOfIs(ids, e.id, |s|);
  }

  /** An update keeps every id in place, so the updated slot is found at the same index. */
  lemma UpdatedEventIsFound(s: seq<Event>, id: string, e: Event)
    requires IndexOf(EventIds(s), id) >= 0 && e.id == id
    ensures var k := IndexOf(EventIds(s), id);
      EventIds(s[k := e]) == EventIds(s) && IndexOf(EventIds(s[k := e]), id) == k
  {
    var k := IndexOf(EventIds(s), id);
    assert EventIds(s[k := e]) == EventIds(s);
  }

  /**
   * With distinct ids, deleting an event leaves no event with its id (so a
   * second delete answers NotFound) and the remaining ids distinct.
   */
  lemma DeletedEventIsGone(s: seq<Event>, id: string)
    requires Distinct(EventIds(s)) && IndexOf(EventIds(s), id) >= 0
    ensures var k := IndexOf(EventIds(s), id);
      var rest := s[..k] + s[k + 1..];
      |rest| == |s| - 1 && IndexOf(EventIds(rest), id) == -1 && Distinct(EventIds(rest))
  {
    var k := IndexOf(EventIds(s), id);
    var ids := EventIds(s);
    EventIdsWithout(s, k);
    RemoveFromDistinct(ids, k);
  }

  /** The ids left after removing the event at `k` are the old ids without the one at `k`. */
  lemma EventIdsWithout(s: seq<Event>, k: nat)
    requires k < |s|
    ensures EventIds(s[..k] + s[k + 1..]) == EventIds(s)[..k] + EventIds(s)[k + 1..]
  {
    var rest := s[..k] + s[k + 1..];
    var ids := EventIds(s);
    forall j | 0 <= j < |rest|
      ensures EventIds(rest)[j] == (ids[..k] + ids[k + 1..])[j]
    {
      if j < k {
        assert rest[j] == s[j];
      } else {
        assert rest[j] == s[j + 1];
      }
    }
  }
}
