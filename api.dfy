/** The request handlers of the travel-journal server, as operations on an
    in-memory user table and story table. Each handler is atomic; the caller
    of an authenticated handler is the `userId` the token check resolved. */
module Api {
  import opened Collection
  import opened Accounts
  import opened TravelStoryModel
  import opened StoryQueries

  datatype Error =
    | AllFieldsRequired
    | UserAlreadyExists
    | EmailAndPasswordRequired
    | UserNotFound
    | InvalidCredentials
    | StoryNotFound
    | ValidationFailed  // `save()` rejected the document
    | CastFailed        // a value did not cast to a Date

  function Message(e: Error): string {
    match e
    case AllFieldsRequired => "All fields are required"
    case UserAlreadyExists => "User already exists"
    case EmailAndPasswordRequired => "Email and password are required"
    case UserNotFound => "User not found"
    case InvalidCredentials => "Invalid credentials"
    case StoryNotFound => "Travel story not found"
    case ValidationFailed => "TravelStory validation failed"
    case CastFailed => "Cast to date failed"
  }

  /** The outcome of a handler, one constructor per status code it sends. */
  datatype Response<+T> =
    | Ok(value: T)
    | Created(value: T)
    | BadRequest(error: Error)
    | Unauthorized
    | NotFound(error: Error)
    | ServerError(error: Error)
  {
    function Status(): nat {
      match this
      case Ok(_) => 200
      case Created(_) => 201
      case BadRequest(_) => 400
      case Unauthorized => 401
      case NotFound(_) => 404
      case ServerError(_) => 500
    }
  }

  /** Largest distance from the epoch, in milliseconds, a JavaScript Date holds. */
  const MaxTimeMs: int := 8_640_000_000_000_000

  /** `new Date(parseInt(x))`, where `parsed` is what `parseInt` produced and
      None stands for NaN: out of range or NaN gives an Invalid Date. */
  function ToDate(parsed: Option<int>): (d: DateValue)
    ensures d != Unset
    ensures d.At? <==> parsed.Some? && -MaxTimeMs <= parsed.value <= MaxTimeMs
    ensures d.At? ==> d.ms == parsed.value
  {
    if parsed.Some? && -MaxTimeMs <= parsed.value <= MaxTimeMs then At(parsed.value) else InvalidDate
  }

  /** A date field of a request body: falsy (absent, empty or 0), or truthy
      together with what `parseInt` made of it. */
  datatype DateField = Falsy | Truthy(parsed: Option<int>)

  /** The check `!title || !story || !visitedLocation || !imageUrl || !visitedDate`
      fails. A string is falsy when empty; an array, even an empty one, is truthy. */
  predicate AllSupplied(title: string, story: string, visitedLocation: Option<seq<string>>,
                        imageUrl: string, visitedDate: DateField)
  {
    title != "" && story != "" && visitedLocation.Some? && imageUrl != "" && visitedDate.Truthy?
  }

  class Server {
    /** The one-way password hash; `bcrypt.compare` is equality of hashes. */
    const hash: string -> string
    var users: seq<User>
    var stories: seq<TravelStory>
    var nextUserId: UserId
    var nextStoryId: StoryId

    ghost predicate Valid()
      reads this
    {
      && EmailsUnique(users)
      && UserIdsUnique(users)
      && (forall k :: 0 <= k < |users| ==> users[k].id < nextUserId)
      && StoryIdsUnique(stories)
      && (forall k :: 0 <= k < |stories| ==> stories[k].id < nextStoryId && TravelStoryModel.Valid(stories[k]))
    }

    constructor (hash: string -> string)
      ensures Valid() && this.hash == hash
      ensures users == [] && stories == []
    {
      this.hash := hash;
      users, stories := [], [];
      nextUserId, nextStoryId := 0, 0;
    }

    /** `POST /create-account`. */
    method CreateAccount(fullName: string, email: string, password: string, now: int) returns (r: Response<Session>)
      requires Valid()
      modifies this
      ensures Valid()
      ensures stories == old(stories) && nextStoryId == old(nextStoryId)
      ensures fullName == "" || email == "" || password == "" ==>
        r == BadRequest(AllFieldsRequired) && users == old(users)
      ensures fullName != "" && email != "" && password != "" && FindByEmail(old(users), email).Some? ==>
        r == BadRequest(UserAlreadyExists) && users == old(users)
      ensures fullName != "" && email != "" && password != "" && FindByEmail(old(users), email).None? ==>
        && users == old(users) + [User(old(nextUserId), fullName, email, hash(password))]
        && r == Created(Session(PublicUser(fullName, email), Sign(old(nextUserId), now)))
    {
      if fullName == "" || email == "" || password == "" {
        return BadRequest(AllFieldsRequired);
      }
      if FindByEmail(users, email).Some? {
        return BadRequest(UserAlreadyExists);
      }
      var user := User(nextUserId, fullName, email, hash(password));
      AppendKeepsEmailsUnique(users, user);
      users := users + [user];
      nextUserId := nextUserId + 1;
      r := Created(Session(Public(user), Sign(user.id, now)));
    }

    /** `POST /login`: read-only. */
    function Login(email: string, password: string, now: int): (r: Response<Session>)
      reads this
      requires Valid()
      ensures r.Ok? || r.BadRequest?
      ensures r.Status() == 200 || r.Status() == 400
      ensures email == "" || password == "" ==> r == BadRequest(EmailAndPasswordRequired)
      ensures email != "" && password != "" && (forall k :: 0 <= k < |users| ==> users[k].email != email) ==>
        r == BadRequest(UserNotFound)
      ensures r.Ok? <==>
        email != "" && password != "" &&
        exists k :: 0 <= k < |users| && users[k].email == email && users[k].password == hash(password)
      ensures r.Ok? ==>
        exists k :: 0 <= k < |users| && users[k].email == email &&
          r.value == Session(Public(users[k]), Sign(users[k].id, now))
      ensures r == BadRequest(InvalidCredentials) <==>
        email != "" && password != "" &&
        exists k :: 0 <= k < |users| && users[k].email == email && users[k].password != hash(password)
    {
      if email == "" || password == "" then BadRequest(EmailAndPasswordRequired)
      else match FindByEmail(users, email)
        case None => BadRequest(UserNotFound)
        case Some(k) =>
          FoundByEmailIsOnly(users, email, k);
          if users[k].password != hash(password) then BadRequest(InvalidCredentials)
          else Ok(Session(Public(users[k]), Sign(users[k].id, now)))
    }

    /** `GET /get-user`: the whole stored document of the caller. */
    function GetUser(userId: UserId): (r: Response<User>)
      reads this
      ensures r.Ok? || r.Unauthorized?
      ensures r.Status() == 401 <==> forall k :: 0 <= k < |users| ==> users[k].id != userId
      ensures r.Unauthorized? <==> forall k :: 0 <= k < |users| ==> users[k].id != userId
      ensures r.Ok? ==> r.value in users && r.value.id == userId
    {
      match FindUserById(users, userId)
      case None => Unauthorized
      case Some(k) => Ok(users[k])
    }

    /** `POST /add-travel-story`. */
    method AddTravelStory(userId: UserId, title: string, story: string, visitedLocation: Option<seq<string>>,
                          imageUrl: string, visitedDate: DateField, now: int) returns (r: Response<TravelStory>)
      requires Valid()
      modifies this
      ensures Valid()
      ensures users == old(users) && nextUserId == old(nextUserId)
      ensures !AllSupplied(title, story, visitedLocation, imageUrl, visitedDate) ==>
        r == BadRequest(AllFieldsRequired) && stories == old(stories)
      ensures AllSupplied(title, story, visitedLocation, imageUrl, visitedDate) && ToDate(visitedDate.parsed).InvalidDate? ==>
        r == BadRequest(ValidationFailed) && stories == old(stories)
      ensures AllSupplied(title, story, visitedLocation, imageUrl, visitedDate) && ToDate(visitedDate.parsed).At? ==>
        && r == Created(TravelStory(old(nextStoryId), title, story, visitedLocation.value, false, userId,
                                    now, imageUrl, ToDate(visitedDate.parsed).ms))
        && stories == old(stories) + [r.value]
    {
      if !AllSupplied(title, story, visitedLocation, imageUrl, visitedDate) {
        return BadRequest(AllFieldsRequired);
      }
      var parsedVisitedDate := ToDate(visitedDate.parsed);
      var draft := Draft(title, story, visitedLocation, None, Some(userId), Unset, imageUrl, parsedVisitedDate);
      match Create(draft, nextStoryId, now) {
        case None =>
          r := BadRequest(ValidationFailed);
        case Some(s) =>
          stories := stories + [s];
          nextStoryId := nextStoryId + 1;
          r := Created(s);
      }
    }

    /** `GET /get-all-stories`: the caller's stories, favourites first. */
    function GetAllStories(userId: UserId): (r: Response<seq<TravelStory>>)
      reads this
      ensures r.Ok? && r.Status() == 200
      ensures forall s :: s in r.value <==> s in stories && s.userId == userId
      ensures multiset(r.value) == multiset(Find(stories, Query(userId, None)))
      ensures FavouritesFirst(r.value)
    {
      Ok(ListByOwner(stories, userId))
    }

    /** `GET /travel-stories/filter`: an Invalid Date bound fails to cast in
        the query and the handler answers 500. */
    function FilterStories(userId: UserId, startDate: Option<int>, endDate: Option<int>): (r: Response<seq<TravelStory>>)
      reads this
      ensures r.Ok? || r == ServerError(CastFailed)
      ensures r.Status() == 500 <==> ToDate(startDate).InvalidDate? || ToDate(endDate).InvalidDate?
      ensures r.Ok? <==> ToDate(startDate).At? && ToDate(endDate).At?
      ensures r.Ok? ==> forall s :: s in r.value <==>
        s in stories && s.userId == userId && ToDate(startDate).ms <= s.visitedDate <= ToDate(endDate).ms
      ensures r.Ok? ==> FavouritesFirst(r.value)
      ensures r.Ok? ==> multiset(r.value) <= multiset(GetAllStories(userId).value)
    {
      var start, end := ToDate(startDate), ToDate(endDate);
      if start.InvalidDate? || end.InvalidDate? then ServerError(CastFailed)
      else
        FilterIsSelectionOfList(stories, userId, start.ms, end.ms);
        Ok(FilterByVisitedDate(stories, userId, start.ms, end.ms))
    }

    /** `DELETE /delete-story/:id`. The image file is left out. */
    method DeleteStory(userId: UserId, id: StoryId) returns (r: Response<()>)
      requires Valid()
      modifies this
      ensures Valid()
      ensures users == old(users) && nextUserId == old(nextUserId) && nextStoryId == old(nextStoryId)
      ensures Locate(old(stories), id, userId).None? ==>
        r == NotFound(StoryNotFound) && stories == old(stories)
      ensures Locate(old(stories), id, userId).Some? ==>
        r == Ok(()) && stories == RemoveAt(old(stories), Locate(old(stories), id, userId).value)
      ensures forall k :: 0 <= k < |stories| ==> !(stories[k].id == id && stories[k].userId == userId)
    {
      var found := Locate(stories, id, userId);
      if found.None? {
        return NotFound(StoryNotFound);
      }
      IdLookupAgreesWithLocate(stories, id, userId);
      OthersHaveOtherIds(stories, found.value);
      var target := FindStoryById(stories, id);
      stories := RemoveAt(stories, target.value);
      r := Ok(());
    }

    /** `PUT /update-is-favourite/:id`: writes the one field. */
    method UpdateIsFavourite(userId: UserId, id: StoryId, isFavourite: bool) returns (r: Response<TravelStory>)
      requires Valid()
      modifies this
      ensures Valid()
      ensures users == old(users) && nextUserId == old(nextUserId) && nextStoryId == old(nextStoryId)
      ensures Locate(old(stories), id, userId).None? ==>
        r == NotFound(StoryNotFound) && stories == old(stories)
      ensures Locate(old(stories), id, userId).Some? ==>
        var i := Locate(old(stories), id, userId).value;
        && stories == old(stories)[i := old(stories)[i].(isFavourite := isFavourite)]
        && r == Ok(stories[i])
    {
      var found := Locate(stories, id, userId);
      if found.None? {
        return NotFound(StoryNotFound);
      }
      var i := found.value;
      var travelStory := stories[i].(isFavourite := isFavourite);
      stories := stories[i := travelStory];
      r := Ok(travelStory);
    }

    /** `PUT /edit-story/:id`: only truthy fields are written; a visited date
        that is an Invalid Date makes `save()` fail and the handler answer 500. */
    method EditStory(userId: UserId, id: StoryId, title: string, story: string,
                     visitedLocation: Option<seq<string>>, imageUrl: string, visitedDate: DateField)
      returns (r: Response<TravelStory>)
      requires Valid()
      modifies this
      ensures Valid()
      ensures users == old(users) && nextUserId == old(nextUserId) && nextStoryId == old(nextStoryId)
      ensures Locate(old(stories), id, userId).None? ==>
        r == NotFound(StoryNotFound) && stories == old(stories)
      ensures Locate(old(stories), id, userId).Some? && visitedDate.Truthy? && ToDate(visitedDate.parsed).InvalidDate? ==>
        r == ServerError(CastFailed) && stories == old(stories)
      ensures Locate(old(stories), id, userId).Some? && !(visitedDate.Truthy? && ToDate(visitedDate.parsed).InvalidDate?) ==>
        var i := Locate(old(stories), id, userId).value;
        |stories| == |old(stories)| &&
        var before, after := old(stories)[i], stories[i];
        && (forall k :: 0 <= k < |stories| && k != i ==> stories[k] == old(stories)[k])
        && r == Ok(after)
        && after.title == (if title != "" then title else before.title)
        && after.story == (if story != "" then story else before.story)
        && after.visitedLocation == (if visitedLocation.Some? then visitedLocation.value else before.visitedLocation)
        && after.imageUrl == (if imageUrl != "" then imageUrl else before.imageUrl)
        && after.visitedDate == (if visitedDate.Truthy? then ToDate(visitedDate.parsed).ms else before.visitedDate)
        && after.id == before.id && after.userId == before.userId
        && after.isFavourite == before.isFavourite && after.createdOn == before.createdOn
    {
      var found := Locate(stories, id, userId);
      if found.None? {
        return NotFound(StoryNotFound);
      }
      var i := found.value;
      var travelStory := stories[i];
      if title != "" { travelStory := travelStory.(title := title); }
      if story != "" { travelStory := travelStory.(story := story); }
      if visitedLocation.Some? { travelStory := travelStory.(visitedLocation := visitedLocation.value); }
      if imageUrl != "" { travelStory := travelStory.(imageUrl := imageUrl); }
      if visitedDate.Truthy? {
        var parsed := ToDate(visitedDate.parsed);
        if parsed.InvalidDate? {
          return ServerError(CastFailed);
        }
        travelStory := travelStory.(visitedDate := parsed.ms);
      }
      stories := stories[i := travelStory];
      r := Ok(travelStory);
    }
  }

  /** Register, try the same email again, and log in: the duplicate is
      refused with 400 and the original password logs in. */
  method AccountScenario(hash: string -> string, now: int)
  {
    var server := new Server(hash);
    var reg := server.CreateAccount("Leo", "leo@x.com", "pw123", now);
    assert reg.Created? && reg.value.user == PublicUser("Leo", "leo@x.com");
    assert reg.Status() == 201;
    var again := server.CreateAccount("Leo", "leo@x.com", "other", now);
    assert again == BadRequest(UserAlreadyExists);
    assert again.Status() == 400 && Message(again.error) == "User already exists";
    var login := server.Login("leo@x.com", "pw123", now);
    assert server.users[0].email == "leo@x.com" && server.users[0].password == hash("pw123");
    assert login.Ok? && login.Status() == 200;
  }

  /** Add a story, let another user try to mark it favourite, mark it as the
      owner, then delete it twice: the stranger and the second delete get 404. */
  method StoryScenario(hash: string -> string, now: int, leo: UserId, ann: UserId)
    requires leo != ann
  {
    var server := new Server(hash);
    var added := server.AddTravelStory(leo, "Lisbon", "Trams", Some(["Alfama"]), "a.png", Truthy(Some(1700000000000)), now);
    assert AllSupplied("Lisbon", "Trams", Some(["Alfama"]), "a.png", Truthy(Some(1700000000000)));
    assert added.Created? && !added.value.isFavourite && added.value.visitedDate == 1700000000000;
    var id := added.value.id;
    OnlyOwnerLocates(server.stories, 0, ann);
    var stolen := server.UpdateIsFavourite(ann, id, true);
    assert stolen == NotFound(StoryNotFound);
    assert stolen.Status() == 404 && Message(stolen.error) == "Travel story not found";
    var fav := server.UpdateIsFavourite(leo, id, true);
    assert fav.Ok? && fav.value.isFavourite;
    var deleted := server.DeleteStory(leo, id);
    assert deleted == Ok(());
    var gone := server.DeleteStory(leo, id);
    assert gone == NotFound(StoryNotFound) && gone.Status() == 404;
  }
}
