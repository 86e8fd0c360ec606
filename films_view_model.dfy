/**
 * FilmsViewModel.swift: the catalog screen's film list and how it is flagged from the
 * favourites store.
 */
module FilmsScreen {
  import opened Wrappers
  import opened Seqs
  import opened Models
  import opened Favourites

  /** One received film after annotation: the store's verdict when it has one, else as received. */
  function Annotate(cache: seq<FavouriteRecord>, f: Film): (r: Film)
    ensures SameExceptFlag(r, f)
    ensures r.isFavourite == IsFavouriteIn(cache, f).GetOr(f.isFavourite)
  {
    match IsFavouriteIn(cache, f)
    case Some(b) => UpdateFavourite(f, b)
    case None => f
  }

  /** A received page, annotated film by film in order. */
  function Annotated(cache: seq<FavouriteRecord>, page: seq<Film>): (r: seq<Film>)
    ensures |r| == |page|
    ensures forall i :: 0 <= i < |page| ==> r[i] == Annotate(cache, page[i])
    decreases |page|
  {
    if |page| == 0 then [] else [Annotate(cache, page[0])] + Annotated(cache, page[1..])
  }

  /**
   * An annotated page keeps the page's length, order and every field but the flag; a titled
   * film is flagged exactly when a cached record has its title, an untitled one keeps its flag.
   */
  lemma AnnotatedPage(cache: seq<FavouriteRecord>, page: seq<Film>)
    ensures |Annotated(cache, page)| == |page|
    ensures forall i :: 0 <= i < |page| ==> SameExceptFlag(Annotated(cache, page)[i], page[i])
    ensures forall i :: 0 <= i < |page| && page[i].title.None? ==>
      Annotated(cache, page)[i].isFavourite == page[i].isFavourite
    ensures forall i :: 0 <= i < |page| && page[i].title.Some? ==>
      (Annotated(cache, page)[i].isFavourite <==>
         exists j :: 0 <= j < |cache| && cache[j].title == page[i].title)
  {
  }

  /** `firstIndex(where: { $0.id == film.id })`: `Int?` equality, so `nil` matches `nil`. */
  function FirstWithFilmId(films: seq<Film>, id: Option<Int64>): Option<nat> {
    FirstIndex(films, (f: Film) => f.id == id)
  }

  /**
   * The list after a toggle notification: with a verdict, the first film with the id gets it,
   * and no other film changes at all; without a verdict or a matching film nothing changes.
   */
  function Reflagged(films: seq<Film>, verdict: Option<bool>, id: Option<Int64>): (r: seq<Film>)
    ensures |r| == |films|
    ensures forall j :: 0 <= j < |films| ==> SameExceptFlag(r[j], films[j])
    ensures forall j :: 0 <= j < |films| && r[j] != films[j] ==>
      verdict.Some? && films[j].id == id && forall i :: 0 <= i < j ==> films[i].id != id
    ensures verdict.Some? ==> forall j :: 0 <= j < |films| && films[j].id == id ==>
      (forall i :: 0 <= i < j ==> films[i].id != id) ==> r[j].isFavourite == verdict.value
  {
    match verdict
    case None => films
    case Some(b) =>
      match FirstWithFilmId(films, id)
      case None => films
      case Some(k) => films[k := UpdateFavourite(films[k], b)]
  }

  class FilmsViewModel {
    /** The `@Published films` array the catalog screen shows. */
    var films: seq<Film>
    /** The shared favourites store. */
    const favouriteService: FavouriteService

    constructor (service: FavouriteService)
      ensures films == [] && favouriteService == service
    {
      films := [];
      favouriteService := service;
    }

    /**
     * `filmsObserver`: a `nil` payload is ignored; otherwise `films` becomes the page and each
     * index is then flagged with the store's verdict, where there is one.
     */
    method OnFilmsPage(page: Option<seq<Film>>)
      modifies this
      ensures page.None? ==> films == old(films)
      ensures page.Some? ==> films == Annotated(favouriteService.favouriteFilms, page.value)
    {
      if page.None? {
        return;
      }
      var received := page.value;
      films := received;
      for index := 0 to |received|
        invariant |films| == |received|
        invariant forall k :: 0 <= k < index ==>
          films[k] == Annotate(favouriteService.favouriteFilms, received[k])
        invariant forall k :: index <= k < |received| ==> films[k] == received[k]
      {
        var verdict := favouriteService.IsFavourite(received[index]);
        if verdict.Some? {
          films := films[index := UpdateFavourite(films[index], verdict.value)];
        }
      }
    }

    /** `addToFavourite(film:)`: the film goes unchanged to the store as a toggle request. */
    method AddToFavourite(film: Film, saveFails: bool) returns (outcome: ToggleOutcome)
      requires favouriteService.Valid()
      modifies favouriteService
      ensures favouriteService.Valid()
      ensures favouriteService.Toggled(film, outcome)
      ensures outcome.Published() ==> favouriteService.acceptsToggles == !saveFails
    {
      outcome := favouriteService.Toggle(film, saveFails);
    }

    /**
     * `favouriteSubjectEmitter`: no verdict (an untitled film) changes nothing; otherwise the
     * first held film with the toggled film's id takes the verdict.
     */
    method OnFavouriteToggled(film: Film)
      modifies this
      ensures films == Reflagged(old(films), favouriteService.IsFavourite(film), film.id)
    {
      var verdict := favouriteService.IsFavourite(film);
      if verdict.None? {
        return;
      }
      var index := FirstWithFilmId(films, film.id);
      if index.Some? {
        films := films[index.value := UpdateFavourite(films[index.value], verdict.value)];
      }
    }
  }
}
