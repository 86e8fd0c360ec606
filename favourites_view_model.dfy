/** FavouritesViewModel.swift: the favourites screen, rebuilt from each published record list. */
module FavouritesScreen {
  import opened Wrappers
  import opened Seqs
  import opened Models
  import opened Favourites

  /**
   * The closure of `prepareFilms`: a film from a record, through the memberwise initializer,
   * so the flag keeps its default `false` whatever the record says.
   */
  function ToFilm(rec: FavouriteRecord): Film {
    NewFilm(None, None, Some([0]), Some(rec.id as Int64), None, None, rec.overview,
            rec.posterPath, rec.releaseDate, rec.title, None)
  }

  /** `prepareFilms(with:)`: a `compactMap` whose closure always returns a film. */
  function PrepareFilms(records: seq<FavouriteRecord>): seq<Film> {
    CompactMap(records, (rec: FavouriteRecord) => Some(ToFilm(rec)))
  }

  /**
   * The conversion keeps length and order; each film takes the record's id, overview, poster
   * path, release date and title, has `genresIDs == [0]`, every other field `nil`, and is not
   * flagged.
   */
  lemma PrepareFilmsConverts(records: seq<FavouriteRecord>)
    ensures |PrepareFilms(records)| == |records|
    ensures forall i :: 0 <= i < |records| ==>
      var f, rec := PrepareFilms(records)[i], records[i];
      && f.id == Some(rec.id as Int64) && f.overview == rec.overview && f.posterPath == rec.posterPath
      && f.releaseDate == rec.releaseDate && f.title == rec.title && f.genresIDs == Some([0])
      && f.adult.None? && f.backdropPath.None? && f.originalLanguage.None?
      && f.originalTitle.None? && f.voteCount.None? && !f.isFavourite
  {
    var convert := (rec: FavouriteRecord) => Some(ToFilm(rec));
    CompactMapTotal(records, convert);
  }

  /**
   * Saving a film whose id fits in `Int32` and converting the record back reproduces the id,
   * title, overview, poster path and release date. The flag does not survive: the record
   * stores it, the conversion ignores it.
   */
  lemma RecordRoundTrip(film: Film)
    requires film.id.Some? && FitsInt32(film.id.value)
    ensures var back := ToFilm(MakeRecord(film));
      && back.id == film.id && back.title == film.title && back.overview == film.overview
      && back.posterPath == film.posterPath && back.releaseDate == film.releaseDate
      && !back.isFavourite
  {
  }

  /**
   * Through the store: after adding a film, the published list has one more entry, and some
   * entry reproduces the film. Which entry it is depends on the fetch order, so none is named.
   */
  lemma AddedFilmRoundTrip(rs: seq<FavouriteRecord>, film: Film)
    requires film.id.Some? && !Traps(rs, film) && !HasId(rs, film.id.value)
    ensures var shown := PrepareFilms(ToggledRecords(rs, film));
      && |shown| == |rs| + 1
      && exists j :: 0 <= j < |shown| && shown[j].id == film.id && shown[j].title == film.title
           && shown[j].overview == film.overview && shown[j].posterPath == film.posterPath
           && shown[j].releaseDate == film.releaseDate
  {
    var after := ToggledRecords(rs, film);
    assert after == rs + [MakeRecord(film)];
    PrepareFilmsConverts(after);
    RecordRoundTrip(film);
    assert PrepareFilms(after)[|rs|].id == film.id;
  }

  class FavouritesViewModel {
    /** The `@Published films` array the favourites screen shows. */
    var films: seq<Film>
    /** The shared favourites store. */
    const favouriteService: FavouriteService

    constructor (service: FavouriteService)
      ensures films == [] && favouriteService == service
    {
      films := [];
      favouriteService := service;
    }

    /** `loadFilms`: each list published by the store replaces `films` with its conversion. */
    method OnFavouritesPublished(records: seq<FavouriteRecord>)
      modifies this
      ensures films == PrepareFilms(records)
    {
      films := PrepareFilms(records);
    }

    /**
     * `removeFromFavourite(film:)`: the same toggle request as adding, so a film whose id is
     * saved gets deleted.
     */
    method RemoveFromFavourite(film: Film, saveFails: bool) returns (outcome: ToggleOutcome)
      requires favouriteService.Valid()
      modifies favouriteService
      ensures favouriteService.Valid()
      ensures favouriteService.Toggled(film, outcome)
      ensures outcome.Published() ==> favouriteService.acceptsToggles == !saveFails
    {
      outcome := favouriteService.Toggle(film, saveFails);
    }
  }
}
