/** The `TravelStory` schema: the record shape, which fields are required,
    and the defaults applied when a document is created. Times are epoch
    milliseconds. */
module TravelStoryModel {
  import opened Collection
  import opened Accounts

  type StoryId = nat

  /** A value assigned to a Date path: nothing, an Invalid Date (what
      `new Date(NaN)` gives), or an instant in epoch milliseconds. */
  datatype DateValue = Unset | InvalidDate | At(ms: int)

  /** A stored travel story; `id` is the document's `_id`. */
  datatype TravelStory = TravelStory(
    id: StoryId,
    title: string,
    story: string,
    visitedLocation: seq<string>,
    isFavourite: bool,
    userId: UserId,
    createdOn: int,
    imageUrl: string,
    visitedDate: int)

  /** The required String paths hold a non-empty string; `userId`, the other
      required path, is always present in a stored record. */
  predicate Valid(s: TravelStory) {
    s.title != "" && s.story != "" && s.imageUrl != ""
  }

  /** The fields handed to the model's constructor; `None`, `""` and `Unset`
      stand for a field that was not supplied. */
  datatype Draft = Draft(
    title: string,
    story: string,
    visitedLocation: Option<seq<string>>,
    isFavourite: Option<bool>,
    userId: Option<UserId>,
    createdOn: DateValue,
    imageUrl: string,
    visitedDate: DateValue)

  predicate HasRequired(d: Draft) {
    d.title != "" && d.story != "" && d.userId.Some? && d.imageUrl != ""
  }

  predicate DatesCast(d: Draft) {
    d.createdOn != InvalidDate && d.visitedDate != InvalidDate
  }

  /** A Date path whose default is `Date.now`. */
  function DateOrNow(v: DateValue, now: int): int
    requires v != InvalidDate
  {
    if v.At? then v.ms else now
  }

  /** `new TravelStory(draft)` followed by validation on `save()`: the defaults
      are filled in, and the document is refused when a required field is
      missing or a date did not cast. */
  function Create(d: Draft, id: StoryId, now: int): (r: Option<TravelStory>)
    ensures r.Some? <==> HasRequired(d) && DatesCast(d)
    ensures r.Some? ==> Valid(r.value)
    ensures r.Some? ==> r.value.id == id && r.value.userId == d.userId.value
    ensures r.Some? ==> r.value.title == d.title && r.value.story == d.story && r.value.imageUrl == d.imageUrl
    ensures r.Some? && d.visitedLocation.Some? ==> r.value.visitedLocation == d.visitedLocation.value
    ensures r.Some? && d.isFavourite.Some? ==> r.value.isFavourite == d.isFavourite.value
    ensures r.Some? && d.createdOn.At? ==> r.value.createdOn == d.createdOn.ms
    ensures r.Some? && d.visitedDate.At? ==> r.value.visitedDate == d.visitedDate.ms
  {
    if !HasRequired(d) || !DatesCast(d) then None
    else Some(TravelStory(
      id,
      d.title,
      d.story,
      if d.visitedLocation.Some? then d.visitedLocation.value else [],
      if d.isFavourite.Some? then d.isFavourite.value else false,
      d.userId.value,
      DateOrNow(d.createdOn, now),
      d.imageUrl,
      DateOrNow(d.visitedDate, now)))
  }

  /** Each field with a default that is left out gets its own default,
      whatever the other fields hold: no locations, not a favourite, created
      and visited now. */
  lemma DefaultsApply(d: Draft, id: StoryId, now: int)
    requires Create(d, id, now).Some?
    ensures d.visitedLocation.None? ==> Create(d, id, now).value.visitedLocation == []
    ensures d.isFavourite.None? ==> !Create(d, id, now).value.isFavourite
    ensures d.createdOn.Unset? ==> Create(d, id, now).value.createdOn == now
    ensures d.visitedDate.Unset? ==> Create(d, id, now).value.visitedDate == now
  {
  }

  /** The draft that spells out every field of a stored story. */
  function DraftOf(s: TravelStory): Draft {
    Draft(s.title, s.story, Some(s.visitedLocation), Some(s.isFavourite),
          Some(s.userId), At(s.createdOn), s.imageUrl, At(s.visitedDate))
  }

  /** Round trip: a valid story is re-created exactly from its own fields,
      whatever the time; an invalid one is refused. */
  lemma CreateFromOwnFields(s: TravelStory, now: int)
    ensures Valid(s) ==> Create(DraftOf(s), s.id, now) == Some(s)
    ensures !Valid(s) ==> Create(DraftOf(s), s.id, now) == None
  {
  }
}
