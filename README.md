# Travel-journal backend: user and story tables

This project models the bookkeeping behind the request handlers of a travel-journal
server. Users register with a full name, an email and a password, and then log in.
A logged-in user keeps "travel stories": a title, the story text, the visited
locations, an image URL, the visit date and a favourite flag.

With the web framework, the database driver, password hashing and token signing
stripped away, every handler becomes an atomic operation on two in-memory tables:

- `collection.dfy`, module `Collection`. A collection is a sequence of documents in
  natural (insertion) order. `findOne` is the first matching position and
  `deleteOne` removes one position.
- `accounts.dfy`, module `Accounts`. This is the user table: users, the public view
  of a user that responses carry, and the access token. The token is reduced to the
  claim it carries (`userId`) and its expiry, 72 hours after issue. Email uniqueness
  is kept here.
- `travel_story_model.dfy`, module `TravelStoryModel`. This is the story schema: the
  record, its required fields, and the defaults applied on creation (no locations,
  not a favourite, created and visited "now").
- `story_queries.dfy`, module `StoryQueries`. These are the queries the handlers run:
  the owner filter, the owner filter with an inclusive visited-date range, the
  favourites-first sort, and the lookup by `(id, userId)`.
- `api.dfy`, module `Api`. Class `Server` holds the user table, the story table and
  the id counters, with one member per route. Read-only routes are functions that
  read the server. Routes that change state are methods that state the whole new
  state. `Api.AccountScenario` steps through register, a duplicate registration
  and login; `Api.StoryScenario` steps through add, a favourite toggle by a
  non-owner and then by the owner, delete, and a second delete. Each proves every
  outcome, status code and message from the contracts alone.

Modelling choices:

- Every time is an integer number of epoch milliseconds. The current time `now` is a
  parameter.
- The password hash is a function the server is built with. A password matches when
  its hash equals the stored one.
- A string field is falsy when it is empty.
- `visitedLocation` is an array, and an array is truthy even when empty. So it is an
  `Option`, and only a missing array counts as "not supplied".
- A date field is either falsy, or truthy together with the result of `parseInt`
  (`None` for NaN). `new Date(n)` is an Invalid Date when n is NaN or lies more than
  8.64e15 ms from the epoch.
- An Invalid Date follows the code's three paths:
  - `add` answers 400, because `save()` fails inside its `try`;
  - `edit` answers 500;
  - `filter` answers 500, because the query cast fails.
- Mongo generates document ids. Here they come from counters, which keeps ids unique.

Behaviour of the code worth knowing:

- `/get-user` returns the whole stored user document, the password hash included.
- The date filter answers 500, not 400, for an unparseable bound.
- "User not found" at login is a 400.
- The list sort promises only favourites first. The model keeps insertion order among
  equal keys, and the handlers' contracts promise no more than favourites-first plus
  "exactly the owner's stories".
- Story deletion unlinks the image file only when it exists (index.js:199-201); that file step is not modelled.

## Model

| member | source | states |
|---|---|---|
| `Collection.FindOne` | index.js:187 | `findOne` gives the first position that the filter accepts, or None exactly when no document matches |
| `Collection.RemoveAt` | index.js:193 | deleting one document keeps every other document, in order, and the multiset loses exactly that document |
| `Accounts.FindByEmail` | index.js:30 | the user lookup by email finds a user holding that email, or None exactly when no user has it |
| `Accounts.FindUserById` | index.js:93 | the user lookup by id finds the user with that id, or None exactly when there is none |
| `Accounts.FoundByEmailIsOnly` | index.js:66-74 | when emails are unique, the user found by email is the only user holding it, so the password check is against that user's hash |
| `Accounts.AppendKeepsEmailsUnique` | index.js:30-42 | adding a user whose email is not yet taken keeps emails unique |
| `TravelStoryModel.Create` | models/travelStoryModel.js:6-15 | a document is accepted exactly when title, story, userId and imageUrl are present and no date is Invalid; the result is valid and keeps every supplied value |
| `TravelStoryModel.DefaultsApply` | models/travelStoryModel.js:9-14 | for an accepted document, each defaulted field left out gets its own default: visitedLocation [], isFavourite false, createdOn now, visitedDate now |
| `TravelStoryModel.CreateFromOwnFields` | models/travelStoryModel.js:7-14 | round trip: a valid story is re-created exactly from its own fields, and a story missing a required field is refused |
| `StoryQueries.Find` | index.js:270-273 | `find` returns exactly the stories that match the owner and date filter, as a sub-multiset of the table |
| `StoryQueries.SortByFavourite` | index.js:174 | the sort on `isFavourite: -1` is a permutation of its input in which every favourite precedes every non-favourite |
| `StoryQueries.ListByOwner` | index.js:174 | the listing holds exactly the caller's stories, each once per occurrence in the table, with favourites first |
| `StoryQueries.FilterByVisitedDate` | index.js:270-273 | the filter holds exactly the caller's stories with start <= visitedDate <= end, with favourites first |
| `StoryQueries.FilterIsSelectionOfList` | index.js:267-274 | the filter result equals the listing with out-of-range stories removed, so it is a sub-multiset of the listing |
| `StoryQueries.Locate` | index.js:187 | the `(id, userId)` lookup finds a story with both that id and that owner, or None exactly when no story has both |
| `StoryQueries.FindStoryById` | index.js:193 | the lookup by `_id` alone finds a story with that id, or None exactly when there is none |
| `StoryQueries.OnlyOwnerLocates` | index.js:187-191 | when ids are unique, a story is located by its id exactly when the caller is its owner, so another user gets "not found" |
| `StoryQueries.IdLookupAgreesWithLocate` | index.js:187-193 | when ids are unique, `deleteOne({ _id })` targets the same story that the owner-scoped `findOne` located |
| `Api.ToDate` | index.js:150 | `new Date(parseInt(x))` is a time exactly when parseInt gave an integer within 8.64e15 ms of the epoch, and that integer is the time |
| `Api.Server.CreateAccount` | index.js:23-56 | returns 400 with the table unchanged on an empty field or a taken email; otherwise appends one user storing hash(password) and answers 201 with name, email and a 72-hour token; emails stay unique |
| `Api.Server.Login` | index.js:59-88 | returns 400 on a missing field, an unknown email or a hash mismatch; returns 200 exactly when a user with that email has hash(password), with that user's name, email and token |
| `Api.Server.GetUser` | index.js:91-100 | returns 401 exactly when no user has the caller's id; otherwise returns 200 with that stored user |
| `Api.Server.AddTravelStory` | index.js:142-167 | returns 400 with the table unchanged when a field is falsy or the date is Invalid; otherwise appends one story owned by the caller, not a favourite, with createdOn = now and visitedDate = the parsed time |
| `Api.Server.GetAllStories` | index.js:170-179 | returns 200 with exactly the caller's stories, as a multiset, with favourites first |
| `Api.Server.FilterStories` | index.js:262-279 | returns 500 exactly when a bound is an Invalid Date; otherwise returns 200 with exactly the caller's stories in [start, end], favourites first, as a sub-multiset of the listing |
| `Api.Server.DeleteStory` | index.js:182-207 | returns 404 with the table unchanged unless the caller owns a story with that id; otherwise removes exactly that story and keeps every other one; afterwards no story has that id and owner |
| `Api.Server.UpdateIsFavourite` | index.js:210-228 | returns 404 with the table unchanged unless the caller owns the story; otherwise writes only `isFavourite` of that story and returns it |
| `Api.Server.EditStory` | index.js:231-258 | returns 404 with the table unchanged unless the caller owns the story, and 500 with the table unchanged when a truthy date is Invalid; otherwise only truthy fields are written, while id, owner, favourite flag, createdOn and every other story stay unchanged |

## Left out

- Web plumbing is not modelled: routing, CORS, JSON body parsing, static files and `app.listen`.
- The database connection and store failures are not modelled, so neither are the 500 answers of list, delete and favourite when the store fails.
- Image upload, `/delete-image` and the removal of a deleted story's image file are file-system I/O. A story is removed whether or not its file exists.
- Token signing and verification are not modelled. An authenticated handler receives a trusted `userId`. The token-checking middleware is not part of this model. Token expiry is recorded but never checked.
- bcrypt is abstracted as a hash function passed in at construction. Its salting and its cost factor are not modelled.
- `parseInt` over strings is not modelled. A request's date arrives already parsed, as an integer or NaN.
- Which raw values are falsy is abstracted too: `0`, `null`, `undefined` and `""` all count as `Falsy`.
- Inputs the handlers do not check are not modelled:
  - a malformed story id, which makes the lookup throw and the handler answer 500;
  - a non-boolean `isFavourite`, which Mongoose casts or unsets;
  - non-string field values.
- Concurrency is not modelled: every handler is atomic and handlers run one after another.
- The order among stories with the same favourite flag is not modelled. Mongo does not promise it, so the handlers' contracts leave it open.
