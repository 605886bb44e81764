/** The queries the story handlers run against the TravelStory collection:
    `find` with an owner (and optionally a visited-date range) filter,
    `.sort({ isFavourite: -1 })`, and `findOne({ _id, userId })`. */
module StoryQueries {
  import opened Collection
  import opened Accounts
  import opened TravelStoryModel

  /** `visitedDate: { $gte: start, $lte: end }`. */
  datatype DateRange = DateRange(start: int, end: int)

  /** A `find` filter: always `{ userId }`, optionally with a date range. */
  datatype Query = Query(userId: UserId, visitedDate: Option<DateRange>)

  predicate Matches(q: Query, s: TravelStory) {
    && s.userId == q.userId
    && (q.visitedDate.Some? ==> q.visitedDate.value.start <= s.visitedDate <= q.visitedDate.value.end)
  }

  /** `find(q)`: the matching documents, in natural order. */
  function Find(stories: seq<TravelStory>, q: Query): (r: seq<TravelStory>)
    ensures forall s :: s in r <==> s in stories && Matches(q, s)
    ensures multiset(r) <= multiset(stories)
  {
    if stories == [] then []
    else
      assert stories == [stories[0]] + stories[1..];
      (if Matches(q, stories[0]) then [stories[0]] else []) + Find(stories[1..], q)
  }

  /** The stories whose favourite flag is `fav`, in their original order. */
  function WithFavourite(stories: seq<TravelStory>, fav: bool): (r: seq<TravelStory>)
    ensures forall k :: 0 <= k < |r| ==> r[k].isFavourite == fav
  {
    if stories == [] then []
    else (if stories[0].isFavourite == fav then [stories[0]] else []) + WithFavourite(stories[1..], fav)
  }

  /** Every favourite precedes every non-favourite. */
  predicate FavouritesFirst(r: seq<TravelStory>) {
    forall i, j :: 0 <= i < j < |r| && r[j].isFavourite ==> r[i].isFavourite
  }

  /** Splitting by the favourite flag loses and invents nothing. */
  lemma {:induction false} FavouritePartition(stories: seq<TravelStory>)
    ensures multiset(WithFavourite(stories, true)) + multiset(WithFavourite(stories, false)) == multiset(stories)
  {
    if stories != [] {
      FavouritePartition(stories[1..]);
      assert stories == [stories[0]] + stories[1..];
    }
  }

  /** `.sort({ isFavourite: -1 })`. The sort key is the flag alone; the model
      keeps natural order among equal keys, which is one admissible outcome. */
  function SortByFavourite(stories: seq<TravelStory>): (r: seq<TravelStory>)
    ensures FavouritesFirst(r)
    ensures multiset(r) == multiset(stories)
    ensures forall s :: s in r <==> s in stories
  {
    FavouritePartition(stories);
    var r := WithFavourite(stories, true) + WithFavourite(stories, false);
    assert forall s :: s in r <==> s in multiset(r);
    r
  }

  /** `/get-all-stories`: `find({ userId }).sort({ isFavourite: -1 })`. */
  function ListByOwner(stories: seq<TravelStory>, userId: UserId): (r: seq<TravelStory>)
    ensures forall s :: s in r <==> s in stories && s.userId == userId
    ensures multiset(r) == multiset(Find(stories, Query(userId, None)))
    ensures FavouritesFirst(r)
  {
    SortByFavourite(Find(stories, Query(userId, None)))
  }

  /** `/travel-stories/filter`: the owner's stories visited within
      `[start, end]`, favourites first. */
  function FilterByVisitedDate(stories: seq<TravelStory>, userId: UserId, start: int, end: int): (r: seq<TravelStory>)
    ensures forall s :: s in r <==> s in stories && s.userId == userId && start <= s.visitedDate <= end
    ensures FavouritesFirst(r)
  {
    SortByFavourite(Find(stories, Query(userId, Some(DateRange(start, end)))))
  }

  lemma {:induction false} FindDistributes(a: seq<TravelStory>, b: seq<TravelStory>, q: Query)
    ensures Find(a + b, q) == Find(a, q) + Find(b, q)
  {
    if a == [] {
      assert a + b == b;
    } else {
      assert (a + b)[0] == a[0];
      assert (a + b)[1..] == a[1..] + b;
      FindDistributes(a[1..], b, q);
    }
  }

  lemma {:induction false} FindCommutesWithFavourite(stories: seq<TravelStory>, q: Query, fav: bool)
    ensures Find(WithFavourite(stories, fav), q) == WithFavourite(Find(stories, q), fav)
  {
    if stories != [] {
      var head := if stories[0].isFavourite == fav then [stories[0]] else [];
      FindDistributes(head, WithFavourite(stories[1..], fav), q);
      FindCommutesWithFavourite(stories[1..], q, fav);
      var found := if Matches(q, stories[0]) then [stories[0]] else [];
      WithFavouriteDistributes(found, Find(stories[1..], q), fav);
    }
  }

  lemma {:induction false} WithFavouriteDistributes(a: seq<TravelStory>, b: seq<TravelStory>, fav: bool)
    ensures WithFavourite(a + b, fav) == WithFavourite(a, fav) + WithFavourite(b, fav)
  {
    if a == [] {
      assert a + b == b;
    } else {
      var head := if a[0].isFavourite == fav then [a[0]] else [];
      assert (a + b)[0] == a[0];
      assert (a + b)[1..] == a[1..] + b;
      assert WithFavourite(a + b, fav) == head + WithFavourite(a[1..] + b, fav);
      WithFavouriteDistributes(a[1..], b, fav);
      assert WithFavourite(a, fav) == head + WithFavourite(a[1..], fav);
    }
  }

  /** Narrowing the owner's stories by a date range is the same as querying
      with the range directly. */
  lemma {:induction false} FindNarrows(stories: seq<TravelStory>, userId: UserId, range: DateRange)
    ensures Find(Find(stories, Query(userId, None)), Query(userId, Some(range)))
         == Find(stories, Query(userId, Some(range)))
  {
    if stories != [] {
      var owned := Query(userId, None);
      var ranged := Query(userId, Some(range));
      var head := if Matches(owned, stories[0]) then [stories[0]] else [];
      assert Find(stories, owned) == head + Find(stories[1..], owned);
      FindDistributes(head, Find(stories[1..], owned), ranged);
      FindNarrows(stories[1..], userId, range);
      assert Find(head, ranged) == if Matches(ranged, stories[0]) then [stories[0]] else [];
    }
  }

  /** The filter result is exactly the listing with the out-of-range stories
      taken out, so it is a sub-multiset of the listing. */
  lemma FilterIsSelectionOfList(stories: seq<TravelStory>, userId: UserId, start: int, end: int)
    ensures FilterByVisitedDate(stories, userId, start, end)
         == Find(ListByOwner(stories, userId), Query(userId, Some(DateRange(start, end))))
    ensures multiset(FilterByVisitedDate(stories, userId, start, end)) <= multiset(ListByOwner(stories, userId))
  {
    var owned := Find(stories, Query(userId, None));
    var q := Query(userId, Some(DateRange(start, end)));
    FindDistributes(WithFavourite(owned, true), WithFavourite(owned, false), q);
    FindCommutesWithFavourite(owned, q, true);
    FindCommutesWithFavourite(owned, q, false);
    FindNarrows(stories, userId, DateRange(start, end));
  }

  predicate StoryIdsUnique(stories: seq<TravelStory>) {
    forall i, j :: 0 <= i < j < |stories| ==> stories[i].id != stories[j].id
  }

  /** `findOne({ _id: id, userId })`: a story owned by someone else is not
      found, exactly like a missing one. */
  function Locate(stories: seq<TravelStory>, id: StoryId, userId: UserId): (r: Option<nat>)
    ensures r.Some? ==> r.value < |stories| && stories[r.value].id == id && stories[r.value].userId == userId
    ensures r.None? <==> forall k :: 0 <= k < |stories| ==> !(stories[k].id == id && stories[k].userId == userId)
  {
    FindOne(stories, (s: TravelStory) => s.id == id && s.userId == userId)
  }

  /** `findOne({ _id: id })` / `deleteOne({ _id: id })`, keyed by id alone. */
  function FindStoryById(stories: seq<TravelStory>, id: StoryId): (r: Option<nat>)
    ensures r.Some? ==> r.value < |stories| && stories[r.value].id == id
    ensures r.None? <==> forall k :: 0 <= k < |stories| ==> stories[k].id != id
  {
    FindOne(stories, (s: TravelStory) => s.id == id)
  }

  lemma OthersHaveOtherIds(stories: seq<TravelStory>, i: nat)
    requires StoryIdsUnique(stories)
    requires i < |stories|
    ensures forall j :: 0 <= j < |stories| && j != i ==> stories[j].id != stories[i].id
  {
  }

  /** Ownership isolation: no caller but the owner locates a story. */
  lemma OnlyOwnerLocates(stories: seq<TravelStory>, i: nat, caller: UserId)
    requires StoryIdsUnique(stories)
    requires i < |stories|
    ensures Locate(stories, stories[i].id, caller).Some? <==> caller == stories[i].userId
    ensures caller == stories[i].userId ==> Locate(stories, stories[i].id, caller) == Some(i)
  {
  }

  /** With unique ids, deleting by id alone removes the story located by
      `(id, userId)`. */
  lemma IdLookupAgreesWithLocate(stories: seq<TravelStory>, id: StoryId, userId: UserId)
    requires StoryIdsUnique(stories)
    requires Locate(stories, id, userId).Some?
    ensures FindStoryById(stories, id) == Locate(stories, id, userId)
  {
  }
}
