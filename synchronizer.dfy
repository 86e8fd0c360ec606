/**
 * The favourite-state synchronization as the tab bar wires it: one favourites store and one
 * catalog service shared by the films screen and the favourites screen. Each event (a
 * catalog response, a toggle request) runs to completion before the next.
 */
module Synchronizer {
  import opened Wrappers
  import opened Models
  import opened Favourites
  import opened FilmsScreen
  import opened FavouritesScreen
  import opened Catalog

  /** The page a run of delivered events hands to `filmsObserver`, if one was delivered. */
  function DeliveredPage(delivered: seq<Event<Option<seq<Film>>>>): Option<Option<seq<Film>>> {
    if |delivered| > 0 && delivered[|delivered| - 1].Value? then Some(delivered[|delivered| - 1].value)
    else None
  }

  class App {
    const favouriteService: FavouriteService
    const filmsService: FilmsService
    const filmsModel: FilmsViewModel
    const favouritesModel: FavouritesViewModel

    /**
     * Both view models observe the one store, and the favourites screen always shows the
     * conversion of the store's current list.
     */
    ghost predicate Valid()
      reads this, favouriteService, favouritesModel
    {
      && favouriteService.Valid()
      && filmsModel.favouriteService == favouriteService
      && favouritesModel.favouriteService == favouriteService
      && favouritesModel.films == PrepareFilms(favouriteService.favouriteFilms)
    }

    /**
     * The tab bar's services and both screens' view models. The list fetched when the store
     * opens reaches the favourites screen.
     */
    constructor (storeLoads: bool, persisted: seq<FavouriteRecord>)
      ensures Valid()
      ensures fresh(favouriteService) && fresh(filmsService) && fresh(filmsModel) && fresh(favouritesModel)
      ensures favouriteService.context == (if storeLoads then persisted else [])
      ensures favouriteService.acceptsToggles == storeLoads
      ensures !filmsService.filmsCompleted && !filmsService.detailsCompleted && filmsModel.films == []
    {
      var store := new FavouriteService(storeLoads, persisted);
      var favourites := new FavouritesViewModel(store);
      favourites.OnFavouritesPublished(store.favouriteFilms);
      favouriteService := store;
      filmsService := new FilmsService();
      filmsModel := new FilmsViewModel(store);
      favouritesModel := favourites;
    }

    /**
     * `getFilms`: the catalog response is delivered through `filmsSubject`; a delivered page
     * is annotated against the store.
     */
    method GetFilms(apiKey: Option<string>, response: Response<Option<seq<Film>>>)
      returns (delivered: seq<Event<Option<seq<Film>>>>)
      requires Valid()
      modifies filmsService`filmsCompleted, filmsModel
      ensures Valid()
      ensures delivered == Delivered(old(filmsService.filmsCompleted), FilmsSends(response))
      ensures filmsService.filmsCompleted == (old(filmsService.filmsCompleted) || HasFailure(delivered))
      ensures DeliveredPage(delivered).None? ==> filmsModel.films == old(filmsModel.films)
      ensures DeliveredPage(delivered).Some? && DeliveredPage(delivered).value.Some? ==>
        filmsModel.films == Annotated(favouriteService.favouriteFilms, DeliveredPage(delivered).value.value)
      ensures DeliveredPage(delivered).Some? && DeliveredPage(delivered).value.None? ==>
        filmsModel.films == old(filmsModel.films)
    {
      var url;
      url, delivered := filmsService.FetchFilms(apiKey, response);
      var page := DeliveredPage(delivered);
      if page.Some? {
        filmsModel.OnFilmsPage(page.value);
      }
    }

    /**
     * A toggle request from either screen. When the store publishes, the favourites screen
     * is rebuilt from the new list and then the films screen re-flags the toggled film.
     */
    method ToggleFavourite(film: Film, fromFavouritesScreen: bool, saveFails: bool)
      returns (outcome: ToggleOutcome)
      requires Valid()
      modifies favouriteService, filmsModel, favouritesModel
      ensures Valid()
      ensures favouriteService.Toggled(film, outcome)
      ensures outcome.Published() ==> favouriteService.acceptsToggles == !saveFails
      ensures outcome.Published() ==>
        filmsModel.films == Reflagged(old(filmsModel.films), favouriteService.IsFavourite(film), film.id)
      ensures !outcome.Published() ==> filmsModel.films == old(filmsModel.films)
    {
      if fromFavouritesScreen {
        outcome := favouritesModel.RemoveFromFavourite(film, saveFails);
      } else {
        outcome := filmsModel.AddToFavourite(film, saveFails);
      }
      if outcome.Published() {
        favouritesModel.OnFavouritesPublished(favouriteService.favouriteFilms);
        filmsModel.OnFavouriteToggled(film);
      }
    }
  }

  /**
   * Adding a film from the catalog and then removing the favourites screen's copy of it, both
   * saves succeeding: the first request adds, the second deletes, and the store is as before.
   */
  method AddThenRemove(app: App, film: Film) returns (added: ToggleOutcome, removed: ToggleOutcome)
    requires app.Valid() && app.favouriteService.acceptsToggles
    requires NoDuplicateIds(app.favouriteService.context)
    requires film.id.Some? && FitsInt32(film.id.value) && !HasId(app.favouriteService.context, film.id.value)
    modifies app.favouriteService, app.filmsModel, app.favouritesModel
    ensures added == Added && removed == Deleted
    ensures app.Valid() && app.favouriteService.acceptsToggles
    ensures app.favouriteService.context == old(app.favouriteService.context)
  {
    ghost var before := app.favouriteService.context;
    added := app.ToggleFavourite(film, false, false);
    ToggleFlipsMembership(before, film);
    var shown := ToFilm(MakeRecord(film));
    RecordRoundTrip(film);
    removed := app.ToggleFavourite(shown, true, false);
    ToggleTwiceRestores(before, film);
  }

  /** A toggle whose save fails completes `filmSubject`: the next request is dropped. */
  method SaveFailureDropsNextToggle(app: App, film: Film, next: Film)
    returns (first: ToggleOutcome, second: ToggleOutcome)
    requires app.Valid() && app.favouriteService.acceptsToggles
    requires film.id.Some? && FitsInt32(film.id.value)
    modifies app.favouriteService, app.filmsModel, app.favouritesModel
    ensures first.Published() && second == Dropped
    ensures app.favouriteService.context == old(ToggledRecords(app.favouriteService.context, film))
  {
    first := app.ToggleFavourite(film, false, true);
    second := app.ToggleFavourite(next, false, false);
  }

  /**
   * A server error on one fetch completes `filmsSubject`: a later clean page is never
   * delivered, and the films screen keeps what it showed.
   */
  method ServerErrorHidesLaterPages(app: App, apiKey: Option<string>,
                                    failing: Response<Option<seq<Film>>>, clean: Response<Option<seq<Film>>>)
    returns (later: seq<Event<Option<seq<Film>>>>)
    requires app.Valid()
    requires failing.statusCode.Some? && IsServerErrorStatus(failing.statusCode.value)
    modifies app.filmsService`filmsCompleted, app.filmsModel
    ensures later == [] && app.filmsService.filmsCompleted
    ensures app.filmsModel.films == old(app.filmsModel.films)
  {
    var first := app.GetFilms(apiKey, failing);
    assert FilmsSends(failing)[|ResponseFailures(failing)| - 1] == Failure(ServerError);
    if !old(app.filmsService.filmsCompleted) {
      assert first[0].Failure?;
    }
    later := app.GetFilms(apiKey, clean);
  }

  /** Films 1 "A" and 2 "B", unflagged, as a catalog page delivers them. */
  function FilmA(): Film {
    NewFilm(None, None, None, Some(1), None, None, None, None, None, Some("A"), None)
  }

  function FilmB(): Film {
    NewFilm(None, None, None, Some(2), None, None, None, None, None, Some("B"), None)
  }

  /** Over an empty store, a page of films 1 and 2 is shown with neither flagged. */
  lemma ScenarioPageOverEmptyStore()
    ensures Annotated([], [FilmA(), FilmB()]) == [FilmA(), FilmB()]
  {
    assert IsFavouriteIn([], FilmA()) == Some(false);
    assert IsFavouriteIn([], FilmB()) == Some(false);
  }

  /**
   * Toggling film 1 saves exactly its record; the films screen then flags film 1 alone and the
   * favourites screen shows film 1.
   */
  lemma ScenarioToggleOn()
    ensures ToggledRecords([], FilmA()) == [MakeRecord(FilmA())]
    ensures Reflagged([FilmA(), FilmB()], IsFavouriteIn([MakeRecord(FilmA())], FilmA()), Some(1))
      == [UpdateFavourite(FilmA(), true), FilmB()]
    ensures PrepareFilms([MakeRecord(FilmA())]) == [ToFilm(MakeRecord(FilmA()))]
  {
    var saved := MakeRecord(FilmA());
    assert FirstWithId([], 1).None?;
    assert [saved][0].title == FilmA().title;
    assert IsFavouriteIn([saved], FilmA()) == Some(true);
    assert FirstWithFilmId([FilmA(), FilmB()], Some(1)) == Some(0);
    PrepareFilmsConverts([saved]);
  }

  /** Toggling the flagged film 1 again deletes its record and clears its flag. */
  lemma ScenarioToggleOff()
    ensures ToggledRecords([MakeRecord(FilmA())], UpdateFavourite(FilmA(), true)) == []
    ensures Reflagged([UpdateFavourite(FilmA(), true), FilmB()], IsFavouriteIn([], FilmA()), Some(1))
      == [FilmA(), FilmB()]
  {
    var flagged := UpdateFavourite(FilmA(), true);
    assert FirstWithId([MakeRecord(FilmA())], 1) == Some(0);
    assert IsFavouriteIn([], FilmA()) == Some(false);
    assert FirstWithFilmId([flagged, FilmB()], Some(1)) == Some(0);
    assert UpdateFavourite(flagged, false) == FilmA();
  }
}
