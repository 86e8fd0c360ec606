# Favourite-toggle synchronization of the movie browser, in Dafny

This project models the part of the iOS movie browser that keeps favourites consistent:
the favourites store (`FavouriteService`), the catalog screen's view model that flags
films from the store (`FilmsViewModel`), the favourites screen's view model that rebuilds
its list from the store (`FavouritesViewModel`), the value type `Film` with its `Codable`
conformance, and the URL builders and response handling of `FilmsService`.

Modules follow the source files:

- `Wrappers`: Swift's `Optional` (`Option`) and throwing results (`Result`).
- `Seqs`: the two standard-library operations the code relies on, `firstIndex(where:)` and
  `compactMap`.
- `Models` (Film.swift): `Film`, `updateFavourite`, the memberwise initializer's default flag,
  and the synthesized decoder and encoder over the coding keys.
- `Favourites` (FavouriteService.swift): the `FavouriteRecord` managed object, the record built
  on add, deletion of the first record with an id, the title-keyed `isFavourite`, and the class
  `FavouriteService`. The class holds the managed object context as a sequence of records
  (`context`), the cached `favouriteFilms`, whether the store loaded, and whether `filmSubject`
  still delivers toggle requests.
- `FilmsScreen` (FilmsViewModel.swift): the annotation of a received page and the re-flagging
  of one film after a toggle, with the class `FilmsViewModel` whose `films` field is rewritten
  index by index.
- `FavouritesScreen` (FavouritesViewModel.swift): `prepareFilms` and the class
  `FavouritesViewModel`.
- `Catalog` (FilmsService.swift): poster sizes, `URLComponents` and the three URL builders, decimal
  text of an id, and what the data-task handlers send on the two subjects.
- `Synchronizer`: one store and one catalog service shared by both view models, as the tab bar
  wires them. It routes each toggle request and each catalog response.

Every event runs to completion before the next one starts. The store is re-read right after a
toggle, so between events the cache equals the context (`FavouriteService.Valid`). The fetch
enqueued on the view context runs before the `isFavouriteSubject` notification that is
enqueued after it on the main queue, so the films screen re-flags against the refreshed cache.

Points where the model follows the code rather than the intended design:

- The toggle decides on the film's **id** (`first(where: { $0.id == id })`). `isFavourite`
  decides on the **title**. Both are modelled as written. `Favourites.TitleAndIdVerdictsDiffer`
  shows that the two can disagree in both directions. `Favourites.TitleVerdictAgreesWhenKeysAgree`
  shows that they agree when titles pick out the same records as ids.
- A `save()` failure, or a store that failed to load, completes `filmSubject` with a failure. From
  then on Combine drops every toggle request (`ToggleOutcome.Dropped`). The context change made
  before the failing save stays in the context.
- `Int32(id)` traps for an id outside the 32-bit range. The toggle reports `Trapped` and changes nothing; the program itself ends there.
- In `fetchFilms`, the `send(completion: .failure(.invalidResponse))` written on the line after
  `return` is parsed as the returned expression, so it is sent when data is missing. The details
  handler only returns.
- A `PassthroughSubject` delivers nothing after its first failure. A status above 299 therefore
  hides a page even when the body decodes (`Catalog.ServerErrorHidesPage`). After any failure,
  no later fetch reaches the films screen.
- The record stores the film's flag, but `prepareFilms` ignores it, so the favourites screen
  shows every film unflagged (`FavouritesScreen.RecordRoundTrip`).

## Model

| member | source | states |
|---|---|---|
| `Seqs.FirstIndex` | NitrixTestTask/Services/CoreData/FavouriteService.swift:76-79 | the result is the smallest index whose element satisfies the predicate; it is `None` exactly when no element does |
| `Seqs.CompactMap` | NitrixTestTask/Flows/Favourites/FavouritesViewModel.swift:69-85 | never longer than the input, and every element is some input element's non-`nil` image |
| `Seqs.CompactMapTotal` | NitrixTestTask/Flows/Favourites/FavouritesViewModel.swift:69-85 | a closure that never returns `nil` makes `compactMap` keep the length and map each element in order |
| `Models.Film` | NitrixTestTask/Models/Film.swift:24-38 | the film record with every stored field but the two `Double` ratings; `isFavourite` is the only mutable field (`SameExceptFlag`, `UpdateFavourite`) |
| `Models.NewFilm` | NitrixTestTask/Models/Film.swift:38 | a film built without an `isFavourite` argument is not flagged |
| `Models.UpdateFavourite` | NitrixTestTask/Models/Film.swift:56-58 | the flag becomes the argument; every `let` field is unchanged |
| `Models.UpdateFavouriteIdempotent` | NitrixTestTask/Models/Film.swift:56-58 | applying the update twice with the same value equals applying it once |
| `Models.UpdateFavouriteLastWins` | NitrixTestTask/Models/Film.swift:56-58 | of two updates only the last one matters |
| `Models.FlagHasNoCodingKey` | NitrixTestTask/Models/Film.swift:40-54 | the thirteen coding keys do not include the favourite flag |
| `Models.DecodeFilm` | NitrixTestTask/Models/Film.swift:24-54 | a decoded film is never flagged; its id and title are present exactly when the payload has them, with the payload's values |
| `Models.EncodeFilm` | NitrixTestTask/Models/Film.swift:40-54 | the encoder writes only coding keys |
| `Models.EncodeDecodeRoundTrip` | NitrixTestTask/Models/Film.swift:24-54 | decoding an encoded film gives it back with the flag reset to `false` |
| `Favourites.FavouriteRecord` | Build/Intermediates.noindex/NitrixTestTask.build/Debug-iphonesimulator/NitrixTestTask.build/DerivedSources/CoreDataGenerated/FavouriteFilm/FavouriteFilm+CoreDataProperties.swift:20-25 | the managed object's six attributes, with a 32-bit id (`Int32`) |
| `Favourites.MakeRecord` | NitrixTestTask/Services/CoreData/FavouriteService.swift:101-108 | the record built on add; `MakeRecordCopiesFilm` states that it copies the film's id, title, overview, poster path, release date and flag |
| `Favourites.MakeRecordCopiesFilm` | NitrixTestTask/Services/CoreData/FavouriteService.swift:101-108 | the added record copies the id, title, overview, poster path, release date and flag |
| `Favourites.FirstWithId` | NitrixTestTask/Services/CoreData/FavouriteService.swift:51 | the first record carrying the id, through `Seqs.FirstIndex`, whose contract states it is the smallest such index |
| `Favourites.HasId` | NitrixTestTask/Services/CoreData/FavouriteService.swift:51 | the toggle's test "some cached record has the film's id"; `HasIdMeans` states it as an existential |
| `Favourites.HasIdMeans` | NitrixTestTask/Services/CoreData/FavouriteService.swift:51 | id-membership by `first(where:)` holds exactly when some record carries the id |
| `Favourites.IsFavouriteIn` | NitrixTestTask/Services/CoreData/FavouriteService.swift:71-86 | `nil` exactly when the film has no title; otherwise true exactly when some cached record has an equal title |
| `Favourites.RemoveFirstWithId` | NitrixTestTask/Services/CoreData/FavouriteService.swift:120-122 | no matching record: unchanged; otherwise one record shorter, the records before the first match kept, the rest shifted down in order |
| `Favourites.RemoveFirstWithIdMultiset` | NitrixTestTask/Services/CoreData/FavouriteService.swift:120-122 | the only record that disappears is the first one with the id |
| `Favourites.RemoveFirstWithIdUnique` | NitrixTestTask/Services/CoreData/FavouriteService.swift:117-122 | with unique ids, deleting removes the id completely, keeps ids unique and leaves every other id's membership alone |
| `Favourites.AppendRecordUnique` | NitrixTestTask/Services/CoreData/FavouriteService.swift:98-108 | adding a film whose id is absent makes the id present, keeps ids unique and leaves other ids alone |
| `Favourites.ToggledRecords` | NitrixTestTask/Services/CoreData/FavouriteService.swift:48-57 | the context after one toggle decision: unchanged without an id, first match deleted when the id is cached, the film's record added otherwise; `ToggleFlipsMembership`, `ToggleKeepsUnique` and `ToggleTwiceRestores` give its properties |
| `Favourites.ToggleFlipsMembership` | NitrixTestTask/Services/CoreData/FavouriteService.swift:48-57 | a toggle flips the film's id-membership, keeps ids unique and leaves every other id's membership as it was |
| `Favourites.ToggleKeepsUnique` | NitrixTestTask/Services/CoreData/FavouriteService.swift:48-57 | a toggle never creates two records with one id |
| `Favourites.ToggleTwiceRestores` | NitrixTestTask/Services/CoreData/FavouriteService.swift:51-60 | two toggles of one film restore every id's membership; for a film that was absent, the same record list comes back |
| `Favourites.DuplicateIdsSurviveDelete` | NitrixTestTask/Services/CoreData/FavouriteService.swift:120-122 | with two records for one id, a toggle deletes only one, and the id stays a favourite |
| `Favourites.TitleAndIdVerdictsDiffer` | NitrixTestTask/Services/CoreData/FavouriteService.swift:51-85 | a film can be reported favourite by title while its id is absent, and reported not favourite while its id is present |
| `Favourites.TitleVerdictAgreesWhenKeysAgree` | NitrixTestTask/Services/CoreData/FavouriteService.swift:72-85 | when a title matches exactly the records with the film's id, the title verdict equals id-membership |
| `Favourites.FavouriteService.constructor` | NitrixTestTask/Services/CoreData/FavouriteService.swift:34-37 | after loading, the cache holds the stored records; a failed load leaves no context, an empty cache and no toggle delivery |
| `Favourites.FavouriteService.IsFavourite` | NitrixTestTask/Services/CoreData/FavouriteService.swift:71-86 | the title verdict over the current cache, whose meaning `IsFavouriteIn` states |
| `Favourites.FavouriteService.AddToFavourite` | NitrixTestTask/Services/CoreData/FavouriteService.swift:98-115 | no context or no id: nothing changes; an id outside `Int32` traps; otherwise the film's record is appended, and a failed save stops toggle delivery |
| `Favourites.FavouriteService.DeleteFromFavourite` | NitrixTestTask/Services/CoreData/FavouriteService.swift:117-129 | no context or no id: nothing changes; otherwise the first record with the id leaves the context, and a failed save stops toggle delivery |
| `Favourites.FavouriteService.FetchFilms` | NitrixTestTask/Services/CoreData/FavouriteService.swift:131-145 | the cache is replaced by the context's records, and that list is published |
| `Favourites.FavouriteService.Toggled` | NitrixTestTask/Services/CoreData/FavouriteService.swift:48-65 | the whole effect of one toggle request, from the old state to the new: the outcome the sink's branches pick, the context `ToggledRecords` gives, nothing changed otherwise, and unique ids kept |
| `Favourites.FavouriteService.Toggle` | NitrixTestTask/Services/CoreData/FavouriteService.swift:39-67 | a request is dropped once the subject has completed; a film without an id is ignored; otherwise exactly one of delete (id cached) or add runs, the cache is refreshed, and unique ids stay unique |
| `Favourites.ToggleTwice` | NitrixTestTask/Services/CoreData/FavouriteService.swift:51-60 | two settled toggles of the same film leave every id's membership as before |
| `FilmsScreen.Annotate` | NitrixTestTask/Flows/Films/FilmsViewModel.swift:52-55 | only the flag may change, and it becomes the store's verdict, or stays as received when there is no verdict |
| `FilmsScreen.Annotated` | NitrixTestTask/Flows/Films/FilmsViewModel.swift:50-56 | the annotated page has the page's length and annotates each index from its own received film |
| `FilmsScreen.AnnotatedPage` | NitrixTestTask/Flows/Films/FilmsViewModel.swift:50-56 | length, order and every field but the flag are kept; a titled film is flagged exactly when a cached record has its title |
| `FilmsScreen.FirstWithFilmId` | NitrixTestTask/Flows/Films/FilmsViewModel.swift:95 | the first displayed film whose id equals the toggled film's, through `Seqs.FirstIndex` |
| `FilmsScreen.Reflagged` | NitrixTestTask/Flows/Films/FilmsViewModel.swift:93-97 | only the first film with the id can change, and only its flag, which takes the verdict; without a verdict nothing changes |
| `FilmsScreen.FilmsViewModel.constructor` | NitrixTestTask/Flows/Films/FilmsViewModel.swift:15-27 | the films list starts empty and observes the given store |
| `FilmsScreen.FilmsViewModel.OnFilmsPage` | NitrixTestTask/Flows/Films/FilmsViewModel.swift:47-56 | a `nil` payload leaves `films` alone; otherwise `films` becomes the page annotated index by index against the cache |
| `FilmsScreen.FilmsViewModel.AddToFavourite` | NitrixTestTask/Flows/Films/FilmsViewModel.swift:79-81 | the store performs exactly the toggle of the unchanged film; after a published toggle, requests keep being delivered exactly when the save succeeded |
| `FilmsScreen.FilmsViewModel.OnFavouriteToggled` | NitrixTestTask/Flows/Films/FilmsViewModel.swift:92-98 | `films` is re-flagged with the store's verdict for the toggled film at the first matching id |
| `FavouritesScreen.ToFilm` | NitrixTestTask/Flows/Favourites/FavouritesViewModel.swift:70-82 | the closure of `prepareFilms`; `RecordRoundTrip` states what of a saved film it gives back |
| `FavouritesScreen.PrepareFilms` | NitrixTestTask/Flows/Favourites/FavouritesViewModel.swift:68-89 | the favourites screen's list; `PrepareFilmsConverts` states its length, order and every field |
| `FavouritesScreen.PrepareFilmsConverts` | NitrixTestTask/Flows/Favourites/FavouritesViewModel.swift:68-89 | same length and order; each film has the record's id, overview, poster path, release date and title, `genresIDs == [0]`, every other field `nil`, and no flag |
| `FavouritesScreen.RecordRoundTrip` | NitrixTestTask/Flows/Favourites/FavouritesViewModel.swift:70-82 | saving a film with an `Int32` id and converting back reproduces its id, title, overview, poster path and release date; the flag comes back `false` |
| `FavouritesScreen.AddedFilmRoundTrip` | NitrixTestTask/Services/CoreData/FavouriteService.swift:98-108 | after adding a film, the favourites list has one more entry and some entry reproduces the film, whatever the fetch order |
| `FavouritesScreen.FavouritesViewModel.constructor` | NitrixTestTask/Flows/Favourites/FavouritesViewModel.swift:15-27 | the list starts empty and observes the given store |
| `FavouritesScreen.FavouritesViewModel.OnFavouritesPublished` | NitrixTestTask/Flows/Favourites/FavouritesViewModel.swift:43-47 | each published record list replaces `films` with its conversion |
| `FavouritesScreen.FavouritesViewModel.RemoveFromFavourite` | NitrixTestTask/Flows/Favourites/FavouritesViewModel.swift:97-99 | the same toggle request as adding, so a saved id gets deleted; after a published toggle, requests keep being delivered exactly when the save succeeded |
| `Catalog.RawValue` | NitrixTestTask/Services/FilmsService.swift:11-20 | the eight raw values; `RawValueRoundTrip` shows they are distinct and `PosterSizeFromRaw` inverts them |
| `Catalog.PosterSizeFromRaw` | NitrixTestTask/Services/FilmsService.swift:11-20 | a size is found exactly for a raw value some case has, and it is that case |
| `Catalog.RawValueRoundTrip` | NitrixTestTask/Services/FilmsService.swift:11-20 | the raw values are distinct: reading a raw value back gives its case |
| `Catalog.Decimal` | NitrixTestTask/Services/FilmsService.swift:119 | the interpolated text of an id; `DecimalRoundTrip` shows it determines the id |
| `Catalog.DecimalRoundTrip` | NitrixTestTask/Services/FilmsService.swift:119 | the decimal text of an id determines the id |
| `Catalog.CreateURL` | NitrixTestTask/Services/FilmsService.swift:64-80 | no key gives the empty file URL; with a key, the https popular-films URL with `api_key` its only query item |
| `Catalog.CreateDetailsURL` | NitrixTestTask/Services/FilmsService.swift:109-125 | no key gives the empty file URL; with a key, path `/3/movie/` plus the decimal id and `api_key` the only query item |
| `Catalog.DetailsPathNamesFilm` | NitrixTestTask/Services/FilmsService.swift:146-152 | a details path names exactly its film, and the popular-films path is no film's details path |
| `Catalog.CreateImageURL` | NitrixTestTask/Services/FilmsService.swift:127-135 | `nil` exactly without a name; otherwise https on `image.tmdb.org` with path `/t/p/`, the raw size, `/` and the name |
| `Catalog.ImagePathRoundTrip` | NitrixTestTask/Services/FilmsService.swift:130-132 | the image path gives back both the size and the poster name |
| `Catalog.FilmsSends` | NitrixTestTask/Services/FilmsService.swift:40-61 | the films handler always sends something; every send but the last is a failure; the last is the page exactly when data came and decoded; a transport error is sent first |
| `Catalog.IsServerErrorStatus` | NitrixTestTask/Services/FilmsService.swift:46 | a status is a server error exactly above 299; the details handler uses the same threshold at line 92 |
| `Catalog.ResponseFailures` | NitrixTestTask/Services/FilmsService.swift:42-49 | the failures both handlers send before looking at the data: only failures, none exactly without a transport error and without a status above 299, the transport error first and `serverError` last |
| `Catalog.DetailsSends` | NitrixTestTask/Services/FilmsService.swift:85-106 | the details handler sends nothing exactly when there is no transport error, no status above 299 and no data; only failures unless data came and decoded, and then the value comes last; a transport error is sent first; with no transport error, a status above 299 sends `serverError` first, and any other status sends at most one event, the value when the body decodes |
| `Catalog.Delivered` | NitrixTestTask/Services/FilmsService.swift:40-61 | a completed subject delivers nothing; otherwise a prefix of the sends in which only the last may be a failure, stopping only at a failure |
| `Catalog.ServerErrorHidesPage` | NitrixTestTask/Services/FilmsService.swift:46-47 | a status above 299 without a transport error delivers only `serverError`, even when the page decodes |
| `Catalog.CleanResponseDeliversPage` | NitrixTestTask/Services/FilmsService.swift:51-56 | a response without errors whose body decodes delivers exactly its page |
| `Catalog.TransportErrorWins` | NitrixTestTask/Services/FilmsService.swift:87-89 | a transport error is the only thing a details subscriber sees |
| `Catalog.ServerErrorHidesDetails` | NitrixTestTask/Services/FilmsService.swift:92-93 | a status above 299 without a transport error delivers only `serverError` to details subscribers, even when the body decodes |
| `Catalog.CleanResponseDeliversDetails` | NitrixTestTask/Services/FilmsService.swift:97-100 | a details response without errors whose body decodes delivers exactly its value |
| `Catalog.FilmsService.constructor` | NitrixTestTask/Services/FilmsService.swift:34-35 | both subjects start open |
| `Catalog.FilmsService.FetchFilms` | NitrixTestTask/Services/FilmsService.swift:37-62 | the request goes to the popular-films URL; subscribers get the sends up to the first failure, which closes the subject |
| `Catalog.FilmsService.FetchFilmDetails` | NitrixTestTask/Services/FilmsService.swift:82-107 | the request goes to the details URL; delivery stops at the first failure in the same way, and the films subject is left alone |
| `Synchronizer.App.constructor` | NitrixTestTask/Flows/TabBar/TabBarController.swift:11-24 | one store and one catalog service, shared by both view models; both catalog subjects start open and the films screen starts empty; the favourites screen shows the loaded records |
| `Synchronizer.App.GetFilms` | NitrixTestTask/Flows/Films/FilmsViewModel.swift:29-56 | a delivered page is annotated against the store; no page or a `nil` page leaves the films screen alone; `filmsSubject` is completed afterwards exactly when it was before or a failure was delivered; nothing else in the catalog service changes, so the details subject is untouched |
| `Synchronizer.App.ToggleFavourite` | NitrixTestTask/Services/CoreData/FavouriteService.swift:59-65 | after a published toggle the store keeps delivering requests exactly when the save succeeded, the favourites screen mirrors the store, and the films screen re-flags the toggled film's first id match with the store's verdict; otherwise the films screen is unchanged |
| `Synchronizer.AddThenRemove` | NitrixTestTask/Services/CoreData/FavouriteService.swift:48-60 | with saves succeeding, adding a film from the catalog and removing the favourites screen's copy of it gives `Added` then `Deleted` and restores the store's records |
| `Synchronizer.SaveFailureDropsNextToggle` | NitrixTestTask/Services/CoreData/FavouriteService.swift:110-128 | a toggle whose save fails is published and its change stays in the context, and the next request is dropped |
| `Synchronizer.ServerErrorHidesLaterPages` | NitrixTestTask/Services/FilmsService.swift:46-47 | after a response with status above 299, a later fetch delivers nothing and the films screen keeps what it showed |
| `Synchronizer.ScenarioPageOverEmptyStore` | NitrixTestTask/Flows/Films/FilmsViewModel.swift:50-56 | films 1 "A" and 2 "B" over an empty store are both unflagged |
| `Synchronizer.ScenarioToggleOn` | NitrixTestTask/Flows/Films/FilmsViewModel.swift:93-97 | toggling film 1 saves its record, flags film 1 alone, and the favourites screen shows it |
| `Synchronizer.ScenarioToggleOff` | NitrixTestTask/Services/CoreData/FavouriteService.swift:51-52 | toggling film 1 again deletes its record and clears its flag |

## Left out

- Concurrency: Combine's queues, `receive(on:)` and dispatch queues. Each event runs to completion,
  so the race between a toggle and its asynchronous re-fetch is not modelled.
- Core Data mechanics: the persistent container, `perform` and disk persistence. The context is
  a sequence of records. A successful fetch returns them in the order they were added. A real
  fetch without sort descriptors has no defined order.
- A failed fetch request ("Unable to Execute Fetch Request"): the fetch always succeeds.
- `Favourites.FavouriteService.Toggle`: does not say what is on disk after a failed save. It
  states only the context, because the re-fetch reads the context, pending changes included.
- `APIKeyService`: the Firebase lookup is an `Option<string>` parameter of the URL builders.
- Network I/O and Foundation's JSON decoder: a data task's completion is a `Response` parameter.
  The decoded page is given, not computed from bytes.
- `Models.DecodeFilm`: covers integer JSON numbers only. `popularity` and `voteAverage` are
  `Double` and are not carried by `Film`. The decoder checks that they hold a number and then
  drops them.
- `URLComponents` percent-encoding and the textual form of a URL. A URL is modelled by its parts.
- String equality is equality of character sequences, with no Unicode canonical equivalence.
- `FilmDetails`, `filmDetailsObserver` and the detail screens: UI with no favourite logic.
- The `getFilmDetails` and `prepareImageURL` forwarders of both view models: they pass their
  arguments through unchanged.
- View controllers, cells, the tab bar's layout and the scene delegate: UIKit layout, gestures
  and navigation.
- Nothing after a `Trapped` outcome corresponds to the program: there `Int32(id)` ends the process, while the
  model keeps the store unchanged and goes on accepting toggles and pages.
- The `print` logging (for example FavouriteService.swift lines 53, 56, 77 and 140, and FilmsViewModel.swift
  line 97): console output with no effect on state.
- The initial `favouriteFilmsSubject` send from the store's `init`: it is taken to reach the
  favourites screen. With a `PassthroughSubject` this depends on when that screen subscribes.
