# Car catalogue CRUD service — a Dafny model

This project models the core of a small FastAPI + MongoDB service that keeps a
catalogue of cars for sale. It covers the record schema
(`chapter5/backend/models.py`) and the five handlers mounted under `/cars`
(`chapter5/backend/routers/cars.py`):

- **list**: a strict price range, an optional exact brand, newest record first,
  25 records per page;
- **create**: validate the body, insert it, read it back;
- **show**: look a record up by id;
- **update**: build a change set from the body, then either `$set` it or, for
  an empty change set, look the record up;
- **delete**: remove a record by id.

The `cars` collection is the class `Router.CarStore`. It holds a map from
identifiers to documents and the counter that issues identifiers, so "sort by
`_id` descending" means newest first. Each handler is one atomic step on that
store. Create, update and delete are methods that change the map. List and show
are functions that only read it.

Modules:

- `Wrappers`: `Option` and `Result`.
- `ObjectIds`: identifiers and their 24-digit hexadecimal string form. It holds
  `ObjectId(id)` as a partial parse and `str(ObjectId)` as formatting, with the
  round trip between them proved.
- `Models`: `CarModel` validation, `UpdateCarModel` defaults, the stored
  document and the `CarCollection` envelope. A request body is given member by
  member as missing, explicit `null` or a value (`Field`), so that the defaults
  apply exactly where Pydantic applies them.
- `Listing`: the list filter, the descending scan over identifiers, and the
  skip/limit window, with lemmas about pages.
- `Router`: the change set and `$set`, the `CarStore` class with the five
  handlers, lemmas about listing across pages, and `Scenario`. `Scenario` follows
  one record from create to a second delete.

Where the code and its stated intent differ, the model follows the code:

- `UpdateCarModel` defaults `year`, `price`, `km` and `cm3` to 1970, 0, 0 and 0
  (models.py:49-52). The change set keeps every value that is not `None`
  (cars.py:80-82). So an update that names only `price` also writes
  `year := 1970`, `km := 0` and `cm3 := 0` (`Router.PriceOnlyUpdate`, `Router.Scenario`).
  This contradicts "Only the provided fields will be updated" (cars.py:77). The
  change set is empty only when all four numeric fields are an explicit `null`.
- An empty change set falls back to `find_one({"_id": id})` with the raw string
  (cars.py:96). Every stored `_id` is an `ObjectId` assigned on insert, and a
  string never equals one. So this path always answers not found, for a
  well-formed or a malformed id alike. It never returns the existing record.
- A malformed id reaches `ObjectId(id)` in show, delete and the non-empty update
  path. Nothing catches the exception that raises, so the request fails with a
  server error, not with "not found". The model gives this its own outcome,
  `MalformedId`.
- `UpdateCarModel` puts no length constraint on `brand` or `make`. So an update
  can store an empty brand, which a create would reject
  (`Router.UpdateWritesEmptyBrand`).
- The list docstring calls the result "unpaginated and limited to 1000
  results" (cars.py:26). The code pages by 25, and the model follows the code.

## Model

| member | source | states |
|---|---|---|
| `ObjectIds.ParseId` | chapter5/backend/routers/cars.py:60 | `ObjectId(id)` succeeds exactly on strings of 24 hexadecimal digits of either case, and on nothing else |
| `ObjectIds.FormatId` | chapter5/backend/models.py:10 | the string form of an identifier is 24 lower-case hexadecimal digits and is accepted by `ObjectId(...)` |
| `ObjectIds.ParseFormatId` | chapter5/backend/models.py:10 | parsing the string form of an identifier gives back that identifier |
| `ObjectIds.FormatParseId` | chapter5/backend/routers/cars.py:60 | a well-formed id string denotes the identifier whose string form is its lower-case spelling |
| `ObjectIds.FormatIdInjective` | chapter5/backend/models.py:17-20 | distinct identifiers have distinct string forms, so the external id identifies a record |
| `ObjectIds.HexValueOfDigits` | chapter5/backend/models.py:10 | reading back the hexadecimal digits of a number below 16^w gives the number |
| `ObjectIds.DigitsOfHexValue` | chapter5/backend/routers/cars.py:60 | writing out the value of a hexadecimal string gives the string in lower case |
| `Models.ParseCarModel` | chapter5/backend/models.py:12-26 | a create body is accepted iff brand and make are present with length ≥ 1 and year, price, km and cm3 are present integers; a rejection names exactly the failing fields; an accepted record carries the body's values and its optional id as a string or `None` |
| `Models.ParsePayloadOf` | chapter5/backend/models.py:12-26 | every record satisfying the constraints is accepted from its own body, unchanged |
| `Models.ParseUpdate` | chapter5/backend/models.py:42-52 | in an update body, a given value is kept as is; brand and make are `None` unless given; an omitted year, price, km or cm3 becomes 1970, 0, 0 or 0, and only an explicit `null` makes them `None` |
| `Models.ToDoc` | chapter5/backend/routers/cars.py:45 | the document inserted for a valid record keeps non-empty brand and make; the caller's id is not part of it |
| `Models.ToModel` | chapter5/backend/models.py:17-20 | the record returned for a stored document carries the document's fields and the string form of its key as `id` |
| `Models.ToModelToDoc` | chapter5/backend/routers/cars.py:45-47 | reading back an inserted record yields the submitted record with the caller's id replaced by the assigned one |
| `Models.ToModelInjective` | chapter5/backend/models.py:17-20 | records read from different keys are different |
| `Listing.MatchingDesc` | chapter5/backend/routers/cars.py:30-34 | the listing holds exactly the stored documents with `min_price < price < max_price` (both strict) and, when the brand filter is on, that exact brand, in strictly descending id order |
| `Listing.Page` | chapter5/backend/routers/cars.py:28-35 | a page holds at most 25 results: those at positions `(page-1)*25` onwards, in order |
| `Listing.PagesArePrefix` | chapter5/backend/routers/cars.py:28-35 | pages 1 to n read in turn give the first 25·n results in order |
| `Listing.AllPages` | chapter5/backend/routers/cars.py:28-35 | enough pages together give back the whole filtered listing, in order |
| `Listing.PagesDisjoint` | chapter5/backend/routers/cars.py:28-35 | two different pages of the listing share no entry |
| `Listing.OnPage` | chapter5/backend/routers/cars.py:29 | the result at position i is on page i / 25 + 1 |
| `Router.ChangeSetOf` | chapter5/backend/routers/cars.py:80-82 | the change set holds exactly the fields of the validated body that are not `None`, each with that field's value |
| `Router.SetFields` | chapter5/backend/routers/cars.py:85-89 | `$set` overwrites exactly the fields in the change set and keeps every other field |
| `Router.SetFieldsIdempotent` | chapter5/backend/routers/cars.py:85-89 | applying the same change set a second time changes nothing more |
| `Router.ChangeSetValues` | chapter5/backend/routers/cars.py:80-82 | every field the update body gives a value for is written with exactly that value |
| `Router.ChangeSetFields` | chapter5/backend/routers/cars.py:80-82 | an update writes brand and make only when the body gives them, and writes year, price, km and cm3 unless the body sets them to `null` |
| `Router.ChangeSetDefaults` | chapter5/backend/models.py:49-52 | an omitted year, price, km or cm3 is written as 1970, 0, 0 or 0 |
| `Router.ChangeSetEmpty` | chapter5/backend/routers/cars.py:84 | the change set is empty iff brand and make are not given and all four numeric fields are an explicit `null` |
| `Router.PriceOnlyUpdate` | chapter5/backend/routers/cars.py:80-89 | an update naming only `price` sets the price and also resets year, km and cm3 to their defaults; brand and make stay as they were |
| `Router.UpdateWritesEmptyBrand` | chapter5/backend/models.py:47 | an update can store an empty brand, since the update schema has no length constraint |
| `Router.CarStore.ListCars` | chapter5/backend/routers/cars.py:16-35 | the whole window of at most 25 records: as many as the newest-first listing of all matches has from position `(p-1)*25` on, up to 25; each record has price strictly inside the bounds and, when `brand` is non-empty, that brand; record i of page p is entry `(p-1)*25 + i` of the newest-first listing of all matches |
| `Router.CarStore.ShowCar` | chapter5/backend/routers/cars.py:55-64 | a malformed id is `MalformedId`; a stored id gives the stored record, whose id is the lower-case spelling of the one asked for; any other id gives "Car {id} not found" |
| `Router.CarStore.CreateCar` | chapter5/backend/routers/cars.py:43-47 | an invalid body is rejected with its failing fields, and the store is unchanged; a valid one is stored under a new key not present before, with every other entry unchanged, and showing the returned id gives back the returned record |
| `Router.CarStore.UpdateCar` | chapter5/backend/routers/cars.py:73-99 | an empty change set always gives not found and no change; otherwise a malformed id is `MalformedId`; a stored id gets exactly the change set overwritten, with other fields and records untouched; an absent id gives not found and no change; keys never change |
| `Router.CarStore.DeleteCar` | chapter5/backend/routers/cars.py:103-112 | a malformed id is `MalformedId`; otherwise the key is removed and nothing else, and the answer is 204 iff the key was present, not found otherwise |
| `Router.ListedOnSomePage` | chapter5/backend/routers/cars.py:28-35 | every stored record matching the filter is on some page of the listing |
| `Router.ListedOnlyOnce` | chapter5/backend/routers/cars.py:28-35 | no record is on two different pages of the same listing |
| `Router.Scenario` | chapter5/backend/routers/cars.py:43-112 | create, show, price update, delete, delete again, show: the record reads back as created; the update sets the price and resets year, km and cm3; the first delete succeeds; the second delete and the final show give not found |

## Left out

- `chapter5/backend/main.py`: reading the database URL and name from the environment, the client lifecycle, CORS and mounting under `/cars`. This is configuration and I/O.
- The front end (`chapter5/frontend/src/pages/Cars.jsx`): a user interface that consumes the API.
- Concurrency: each handler is one atomic step, and interleaved requests are not modelled.
- Database failures such as connection loss or timeouts, which surface as server errors, are not modelled.
- The `print(car)` call in create (cars.py:44) is output only.
- How identifiers are generated. Real identifiers are built from a timestamp, a random value and a counter; the model issues them from a counter, `CarStore.nextId`.
- `Router.CarStore.CreateCar`: requires that the counter has not used up all 2^96 identifiers.
- `ObjectId(id)` also tolerates some whitespace inside a 24-character string, because the hexadecimal decoding skips it. The model treats such strings as malformed.
- BSON stores integers in 64 bits. Values beyond that range, which the driver refuses to encode, are not modelled: integers are unbounded.
- Type conversion of JSON values is not modelled. Pydantic converts numeric strings, floats and booleans into integers, turns a non-string `id` into a string, and ignores unknown members. A body member is already typed in the model (`Field<string>`, `Field<int>`). The `_id`/`id` aliasing is not modelled either.
- Response validation is not modelled: a returned record is not re-checked against `CarModel`. For example, a record whose brand an update emptied would fail that check when it is returned.
- Error responses are modelled as an outcome tag with the detail message. The JSON shape of the body is not modelled.
- The list query's parameter defaults (cars.py:18-21: min_price 0, max_price 100000, no brand, page 1) belong to the web framework; `Router.CarStore.ListCars` takes all four as arguments.
- `Router.CarStore.ListCars`: requires `page >= 1`. A smaller page gives a negative skip, which the driver rejects; that error is not modelled.
