/** Listing published events page by page, while the table may change between pages. */
module Paging {
  import opened Basics
  import opened Model

  /** The sort key of the listing, and the content of a cursor. */
  datatype Key = Key(at: Time, id: Id)

  predicate Less(a: Key, b: Key) {
    a.at < b.at || (a.at == b.at && a.id < b.id)
  }

  function KeyOf(events: map<Id, Event>, id: Id): Key
    requires id in events
  {
    Key(events[id].startsAt, id)
  }

  /** WHERE status = 'published' [AND (starts_at, id) > (cursor)]. */
  predicate Matches(events: map<Id, Event>, cursor: Option<Key>, id: Id) {
    && id in events && events[id].status == Published
    && (cursor.Some? ==> Less(cursor.value, KeyOf(events, id)))
  }

  predicate Ascending(events: map<Id, Event>, ids: seq<Id>) {
    && (forall id | id in ids :: id in events)
    && forall i, j | 0 <= i < j < |ids| :: Less(KeyOf(events, ids[i]), KeyOf(events, ids[j]))
  }

  /** The rows come in order, all match, and a matching row is missing only if the limit was reached before it. */
  ghost predicate Selected(events: map<Id, Event>, cursor: Option<Key>, limit: nat, ids: seq<Id>) {
    && Ascending(events, ids) && |ids| <= limit
    && (forall id | id in ids :: Matches(events, cursor, id))
    && (forall id | Matches(events, cursor, id) && id !in ids ::
          |ids| == limit && forall k | k in ids :: Less(KeyOf(events, k), KeyOf(events, id)))
  }

  /** The handler's limit: 50 unless the query gives one from 1 to 100. */
  function Limit(given: Option<int>): nat {
    if given.Some? && 0 < given.value <= 100 then given.value else 50
  }

  // ---- the query and the handler ----

  method Least(events: map<Id, Event>, ids: set<Id>) returns (least: Id)
    requires ids != {} && forall id | id in ids :: id in events
    ensures least in ids && forall id | id in ids :: id == least || Less(KeyOf(events, least), KeyOf(events, id))
  {
    least :| least in ids;
    var rest := ids - {least};
    while rest != {}
      invariant rest <= ids && least in ids
      invariant forall id | id in ids && id !in rest :: id == least || Less(KeyOf(events, least), KeyOf(events, id))
      decreases |rest|
    {
      var id :| id in rest;
      if Less(KeyOf(events, id), KeyOf(events, least)) { least := id; }
      rest := rest - {id};
    }
  }

  method GetAllPublished(events: map<Id, Event>, cursor: Option<Key>, limit: nat) returns (ids: seq<Id>)
    ensures Selected(events, cursor, limit, ids)
  {
    var rest := set id | id in events && Matches(events, cursor, id);
    ids := [];
    while rest != {} && |ids| < limit
      invariant |ids| <= limit && Ascending(events, ids) && forall id | id in ids :: Matches(events, cursor, id)
      invariant forall id | id in events && Matches(events, cursor, id) :: id in ids <==> id !in rest
      invariant forall id | id in rest :: Matches(events, cursor, id)
      invariant forall k, id | k in ids && id in rest :: Less(KeyOf(events, k), KeyOf(events, id))
      decreases |rest|
    {
      var least := Least(events, rest);
      assert forall k | k in ids :: Less(KeyOf(events, k), KeyOf(events, least));
      ids := ids + [least];
      rest := rest - {least};
    }
  }

  /** What a page and its cursor promise: the page is in order and matches; with a next cursor it is full, the
      cursor is its last key and every other match lies behind it; without one it holds every match. */
  ghost predicate IsPage(events: map<Id, Event>, cursor: Option<Key>, limit: nat, page: seq<Id>, next: Option<Key>) {
    && Ascending(events, page) && |page| <= limit
    && (forall id | id in page :: Matches(events, cursor, id))
    && (next.None? ==> forall id | Matches(events, cursor, id) :: id in page)
    && (next.Some? ==>
          && |page| == limit > 0 && next.value == KeyOf(events, page[|page| - 1])
          && (exists id :: Matches(events, cursor, id) && id !in page)
          && (forall id | Matches(events, cursor, id) && id !in page :: Less(next.value, KeyOf(events, id))))
  }

  /** Asks for one row more than the page holds; if it comes, cuts it off and hands out the last kept key. */
  method GetPublishedEvents(events: map<Id, Event>, given: Option<int>, cursor: Option<Key>)
    returns (page: seq<Id>, next: Option<Key>)
    ensures IsPage(events, cursor, Limit(given), page, next)
  {
    var limit := 50;
    if given.Some? && given.value > 0 && given.value <= 100 { limit := given.value; }
    page := GetAllPublished(events, cursor, limit + 1);
    next := None;
    if |page| == limit + 1 {
      ghost var more := page;
      page := page[..limit];
      var last := page[|page| - 1];
      next := Some(Key(events[last].startsAt, last));
      assert more[limit] !in page by {
        forall i | 0 <= i < limit ensures more[i] != more[limit] { assert Less(KeyOf(events, more[i]), KeyOf(events, more[limit])); }
      }
      assert Matches(events, cursor, more[limit]);
    }
  }

  // ---- traversals ----

  /** One request: the table it met, the page it got, the cursor it was given for the next. */
  datatype Turn = Turn(events: map<Id, Event>, page: seq<Id>, next: Option<Key>)

  /** Requests that follow the cursors from `cursor` to the end, over tables that may differ. */
  ghost predicate Traversal(turns: seq<Turn>, cursor: Option<Key>, limit: nat)
    decreases |turns|
  {
    && turns != [] && IsPage(turns[0].events, cursor, limit, turns[0].page, turns[0].next)
    && if turns[0].next.None? then |turns| == 1 else Traversal(turns[1..], turns[0].next, limit)
  }

  /** Everything the traversal showed, in order. */
  function Shown(turns: seq<Turn>): seq<Id>
    decreases |turns|
  {
    if turns == [] then [] else turns[0].page + Shown(turns[1..])
  }

  /** The event is in every table, with the same start. */
  ghost predicate SameStart(turns: seq<Turn>, id: Id, at: Time) {
    forall t | t in turns && id in t.events :: t.events[id].startsAt == at
  }

  ghost predicate AlwaysPublished(turns: seq<Turn>, id: Id) {
    forall t | t in turns :: id in t.events && t.events[id].status == Published
  }

  /** The cursor has not passed the key yet. */
  predicate Ahead(cursor: Option<Key>, key: Key) {
    cursor.Some? ==> Less(cursor.value, key)
  }

  lemma {:induction false} PageCount(events: map<Id, Event>, page: seq<Id>, id: Id)
    requires Ascending(events, page)
    ensures multiset(page)[id] == if id in page then 1 else 0
    decreases |page|
  {
    if page != [] {
      var n := |page| - 1;
      PageCount(events, page[..n], id);
      assert page == page[..n] + [page[n]];
      assert page[n] !in page[..n] by {
        forall i | 0 <= i < n ensures page[i] != page[n] { assert Less(KeyOf(events, page[i]), KeyOf(events, page[n])); }
      }
    }
  }

  lemma ShownFirst(turns: seq<Turn>, id: Id)
    requires turns != []
    ensures multiset(Shown(turns))[id] == multiset(turns[0].page)[id] + multiset(Shown(turns[1..]))[id]
  {
  }

  /** A shown event is not ahead of the next cursor; one that was skipped for lack of room still is. */
  lemma PageMoves(t: Turn, cursor: Option<Key>, limit: nat, id: Id, at: Time)
    requires IsPage(t.events, cursor, limit, t.page, t.next) && t.next.Some? && (id in t.events ==> t.events[id].startsAt == at)
    ensures id in t.page ==> Ahead(cursor, Key(at, id)) && !Ahead(t.next, Key(at, id))
    ensures !Ahead(cursor, Key(at, id)) ==> !Ahead(t.next, Key(at, id))
    ensures Matches(t.events, cursor, id) && id !in t.page ==> Ahead(t.next, Key(at, id))
  {
    var last := t.page[|t.page| - 1];
    assert Matches(t.events, cursor, last);
    if id in t.page {
      var i :| 0 <= i < |t.page| && t.page[i] == id;
      if i < |t.page| - 1 { assert Less(KeyOf(t.events, id), KeyOf(t.events, last)); }
    }
  }

  /** Whatever else changes between pages, an event that keeps its start is shown at most once, and exactly
      once if it is published throughout. */
  lemma {:induction false} ShownFrom(turns: seq<Turn>, cursor: Option<Key>, limit: nat, id: Id, at: Time)
    requires Traversal(turns, cursor, limit) && SameStart(turns, id, at)
    ensures multiset(Shown(turns))[id] <= if Ahead(cursor, Key(at, id)) then 1 else 0
    ensures AlwaysPublished(turns, id) && Ahead(cursor, Key(at, id)) ==> multiset(Shown(turns))[id] == 1
    decreases |turns|
  {
    var t, rest := turns[0], turns[1..];
    PageCount(t.events, t.page, id);
    ShownFirst(turns, id);
    if t.next.Some? {
      PageMoves(t, cursor, limit, id, at);
      assert SameStart(rest, id, at) && (AlwaysPublished(turns, id) ==> AlwaysPublished(rest, id));
      ShownFrom(rest, t.next, limit, id, at);
    } else {
      assert rest == [];
    }
  }

  lemma StableEventShownOnce(turns: seq<Turn>, given: Option<int>, id: Id, at: Time)
    requires Traversal(turns, None, Limit(given)) && SameStart(turns, id, at) && AlwaysPublished(turns, id)
    ensures multiset(Shown(turns))[id] == 1
  {
    ShownFrom(turns, None, Limit(given), id, at);
  }

  // ---- a table that does not change ----

  ghost predicate Fixed(turns: seq<Turn>, events: map<Id, Event>) {
    forall t | t in turns :: t.events == events
  }

  /** What lies behind the next cursor is what matches and was not on the page. */
  lemma PageCuts(events: map<Id, Event>, cursor: Option<Key>, limit: nat, page: seq<Id>, next: Option<Key>, id: Id)
    requires IsPage(events, cursor, limit, page, next) && next.Some?
    ensures Matches(events, cursor, id) <==> id in page || Matches(events, next, id)
    ensures id in page ==> !Less(next.value, KeyOf(events, id))
  {
    if id in events {
      PageMoves(Turn(events, page, next), cursor, limit, id, events[id].startsAt);
      assert Matches(events, cursor, page[|page| - 1]);
    }
  }

  lemma PageThenRest(events: map<Id, Event>, cursor: Option<Key>, limit: nat, page: seq<Id>, next: Option<Key>, rest: seq<Id>)
    requires IsPage(events, cursor, limit, page, next) && next.Some?
    requires Ascending(events, rest) && forall id :: id in rest <==> Matches(events, next, id)
    ensures Ascending(events, page + rest)
  {
    forall i, j | 0 <= i < |page| && 0 <= j < |rest| ensures Less(KeyOf(events, page[i]), KeyOf(events, rest[j])) {
      PageCuts(events, cursor, limit, page, next, page[i]);
      assert Matches(events, next, rest[j]);
    }
  }

  /** Over a fixed table the pages put together are the whole remaining listing, in order. */
  lemma {:induction false} FixedListing(turns: seq<Turn>, cursor: Option<Key>, limit: nat, events: map<Id, Event>)
    requires Traversal(turns, cursor, limit) && Fixed(turns, events)
    ensures Ascending(events, Shown(turns)) && forall id :: id in Shown(turns) <==> Matches(events, cursor, id)
    decreases |turns|
  {
    var t, rest := turns[0], turns[1..];
    if t.next.None? {
      assert rest == [] && Shown(turns) == t.page;
    } else {
      FixedListing(rest, t.next, limit, events);
      var tail := Shown(rest);
      assert Shown(turns) == t.page + tail;
      PageThenRest(events, cursor, limit, t.page, t.next, tail);
      forall id ensures id in t.page + tail <==> Matches(events, cursor, id) { PageCuts(events, cursor, limit, t.page, t.next, id); }
    }
  }

  function LeftToShow(events: map<Id, Event>, cursor: Option<Key>): set<Id> {
    set id | id in events && Matches(events, cursor, id)
  }

  lemma AscendingCount(events: map<Id, Event>, ids: seq<Id>)
    requires Ascending(events, ids)
    ensures |Elements(ids)| == |ids|
  {
    forall i, j | 0 <= i < j < |ids| ensures ids[i] != ids[j] { assert Less(KeyOf(events, ids[i]), KeyOf(events, ids[j])); }
    DistinctCount(ids);
  }

  /** A traversal of a fixed table ends: every page with a next cursor leaves exactly `limit` events fewer, and some. */
  lemma PageShrinks(events: map<Id, Event>, cursor: Option<Key>, limit: nat, page: seq<Id>, next: Option<Key>)
    requires IsPage(events, cursor, limit, page, next) && next.Some?
    ensures |LeftToShow(events, next)| == |LeftToShow(events, cursor)| - limit > 0
  {
    AscendingCount(events, page);
    var before, after := LeftToShow(events, cursor), LeftToShow(events, next);
    forall id ensures id in before <==> id in Elements(page) || id in after { PageCuts(events, cursor, limit, page, next, id); }
    forall id | id in page ensures id !in after { PageCuts(events, cursor, limit, page, next, id); }
    assert before == Elements(page) + after && Elements(page) !! after;
    var more :| Matches(events, cursor, more) && more !in page;
    assert more in after;
  }

  /** Pages of one table that follow each other's cursors, each with a next cursor. */
  ghost predicate Pages(turns: seq<Turn>, cursor: Option<Key>, limit: nat, events: map<Id, Event>)
    decreases |turns|
  {
    turns != [] ==>
      && IsPage(events, cursor, limit, turns[0].page, turns[0].next) && turns[0].next.Some?
      && Pages(turns[1..], turns[0].next, limit, events)
  }

  /** So many pages with a next cursor need more events than they show: a traversal of a fixed table ends. */
  lemma {:induction false} PagesRunOut(turns: seq<Turn>, cursor: Option<Key>, limit: nat, events: map<Id, Event>)
    requires turns != [] && Pages(turns, cursor, limit, events)
    ensures |turns| * limit < |LeftToShow(events, cursor)| && |turns| < |LeftToShow(events, cursor)|
    decreases |turns|
  {
    var rest := turns[1..];
    PageShrinks(events, cursor, limit, turns[0].page, turns[0].next);
    if rest == [] {
      assert |turns| == 1;
    } else {
      PagesRunOut(rest, turns[0].next, limit, events);
      assert |turns| * limit == |rest| * limit + limit;
    }
  }

  // ---- what a page shows, column by column ----

  /** The first event comes before the second: by start, then by id. */
  lemma OrderIs(events: map<Id, Event>, a: Id, b: Id)
    requires a in events && b in events
    ensures Less(KeyOf(events, a), KeyOf(events, b)) <==>
              events[a].startsAt < events[b].startsAt || (events[a].startsAt == events[b].startsAt && a < b)
  {
  }

  /** A page shows published events only, all behind the cursor, by start and then id; a published event behind the
      cursor is missing only if the page is full and it comes after the page's last. */
  lemma PageShows(events: map<Id, Event>, cursor: Option<Key>, limit: nat, page: seq<Id>, next: Option<Key>)
    requires IsPage(events, cursor, limit, page, next)
    ensures |page| <= limit
    ensures forall id | id in page ::
              && id in events && events[id].status == Published
              && (cursor.Some? ==> cursor.value.at < events[id].startsAt || (cursor.value.at == events[id].startsAt && cursor.value.id < id))
    ensures forall i, j | 0 <= i < j < |page| && page[i] in events && page[j] in events ::
              events[page[i]].startsAt < events[page[j]].startsAt || (events[page[i]].startsAt == events[page[j]].startsAt && page[i] < page[j])
    ensures forall id | id in events && events[id].status == Published && id !in page
              && (cursor.Some? ==> cursor.value.at < events[id].startsAt || (cursor.value.at == events[id].startsAt && cursor.value.id < id)) ::
              && next.Some? && |page| == limit > 0 && page[limit - 1] in events
              && (var last := page[limit - 1];
                  events[last].startsAt < events[id].startsAt || (events[last].startsAt == events[id].startsAt && last < id))
    ensures next.Some? ==> |page| == limit > 0 && page[limit - 1] in events && next.value == Key(events[page[limit - 1]].startsAt, page[limit - 1])
  {
    forall id | id in page ensures Matches(events, cursor, id) {}
    forall i, j | 0 <= i < j < |page| ensures Less(KeyOf(events, page[i]), KeyOf(events, page[j])) {}
    if next.Some? { assert page[limit - 1] in page; }
    forall id | id in events && events[id].status == Published && id !in page
                && (cursor.Some? ==> cursor.value.at < events[id].startsAt || (cursor.value.at == events[id].startsAt && cursor.value.id < id))
      ensures Matches(events, cursor, id) {}
  }

  /** The query itself: published rows behind the cursor, in order, as many as there are or the limit allows. */
  lemma QueryShows(events: map<Id, Event>, cursor: Option<Key>, limit: nat, ids: seq<Id>, id: Id)
    requires Selected(events, cursor, limit, ids)
    ensures id in ids ==>
              && id in events && events[id].status == Published
              && (cursor.Some? ==> cursor.value.at < events[id].startsAt || (cursor.value.at == events[id].startsAt && cursor.value.id < id))
    ensures id in events && events[id].status == Published && |ids| < limit
            && (cursor.Some? ==> cursor.value.at < events[id].startsAt || (cursor.value.at == events[id].startsAt && cursor.value.id < id)) ==>
              id in ids
  {
    if id in ids { assert Matches(events, cursor, id); }
    if id in events && events[id].status == Published && |ids| < limit
       && (cursor.Some? ==> cursor.value.at < events[id].startsAt || (cursor.value.at == events[id].startsAt && cursor.value.id < id)) {
      assert Matches(events, cursor, id);
    }
  }

  /** A limit from 1 to 100 is taken as given; anything else means 50. */
  lemma LimitIs(given: Option<int>)
    ensures given.Some? && 1 <= given.value <= 100 ==> Limit(given) == given.value
    ensures given.None? || given.value < 1 || 100 < given.value ==> Limit(given) == 50
  {
  }

  /** A traversal of a fixed table from the start shows exactly the published events, by start and then id. */
  lemma ListingShows(turns: seq<Turn>, limit: nat, events: map<Id, Event>)
    requires Traversal(turns, None, limit) && Fixed(turns, events)
    ensures forall id :: id in Shown(turns) <==> id in events && events[id].status == Published
    ensures forall i, j | 0 <= i < j < |Shown(turns)| && Shown(turns)[i] in events && Shown(turns)[j] in events ::
              var a, b := Shown(turns)[i], Shown(turns)[j];
              events[a].startsAt < events[b].startsAt || (events[a].startsAt == events[b].startsAt && a < b)
  {
    FixedListing(turns, None, limit, events);
    forall id ensures Matches(events, None, id) <==> id in events && events[id].status == Published {}
    forall i, j | 0 <= i < j < |Shown(turns)| ensures Less(KeyOf(events, Shown(turns)[i]), KeyOf(events, Shown(turns)[j])) {}
  }
}
