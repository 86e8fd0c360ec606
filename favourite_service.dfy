/**
 * FavouriteService.swift: the favourites store. The Core Data managed object context is an
 * in-memory sequence of records, and `favouriteFilms` is the service's cached copy of it.
 */
module Favourites {
  import opened Wrappers
  import opened Seqs
  import opened Models

  /** The `Int32` attribute type of the `FavouriteFilm` entity. */
  type Int32 = x: int | -0x8000_0000 <= x < 0x8000_0000

  predicate FitsInt32(x: int) {
    -0x8000_0000 <= x < 0x8000_0000
  }

  /** A `FavouriteFilm` managed object: the attributes of the generated Core Data class. */
  datatype FavouriteRecord = FavouriteRecord(
    id: Int32,
    isFavourite: bool,
    overview: Option<string>,
    posterPath: Option<string>,
    releaseDate: Option<string>,
    title: Option<string>)

  /**
   * The record `addToFavourite` fills in. `Int32(id)` traps when the id does not fit,
   * which is why the id must be present and in range.
   */
  function MakeRecord(film: Film): FavouriteRecord
    requires film.id.Some? && FitsInt32(film.id.value)
  {
    FavouriteRecord(film.id.value, film.isFavourite, film.overview, film.posterPath,
                    film.releaseDate, film.title)
  }

  lemma MakeRecordCopiesFilm(film: Film)
    requires film.id.Some? && FitsInt32(film.id.value)
    ensures var r := MakeRecord(film);
      && r.id as int == film.id.value as int && r.title == film.title && r.overview == film.overview
      && r.posterPath == film.posterPath && r.releaseDate == film.releaseDate
      && r.isFavourite == film.isFavourite
  {
  }

  /** `first(where: { $0.id == id })`; Swift's `==` between `Int32` and `Int` compares values. */
  function FirstWithId(rs: seq<FavouriteRecord>, id: int): Option<nat> {
    FirstIndex(rs, (r: FavouriteRecord) => r.id == id)
  }

  /** Membership keyed by identifier, as the toggle decides it. */
  predicate HasId(rs: seq<FavouriteRecord>, id: int) {
    FirstWithId(rs, id).Some?
  }

  lemma HasIdMeans(rs: seq<FavouriteRecord>, id: int)
    ensures HasId(rs, id) <==> exists j :: 0 <= j < |rs| && rs[j].id == id
  {
    if HasId(rs, id) {
      var k := FirstWithId(rs, id).value;
      assert rs[k].id == id;
    }
  }

  /** No two records share an identifier, as long as only the toggle creates records. */
  predicate NoDuplicateIds(rs: seq<FavouriteRecord>) {
    forall i, j :: 0 <= i < j < |rs| ==> rs[i].id != rs[j].id
  }

  /**
   * `isFavourite`: `nil` for a film without a title, otherwise whether some cached record
   * carries an equal title. Comparing `String?` with `String` promotes the right side, so a
   * record without a title never matches. The identifier plays no part.
   */
  function IsFavouriteIn(cache: seq<FavouriteRecord>, film: Film): (r: Option<bool>)
    ensures r.None? <==> film.title.None?
    ensures r.Some? ==> (r.value <==> exists j :: 0 <= j < |cache| && cache[j].title == film.title)
  {
    match film.title
    case None => None
    case Some(t) => Some(FirstIndex(cache, (rec: FavouriteRecord) => rec.title == Some(t)).Some?)
  }

  /**
   * What `deleteFromFavourite` leaves in the context: the first record with the id is
   * deleted, every other record stays, in order.
   */
  function RemoveFirstWithId(rs: seq<FavouriteRecord>, id: int): (r: seq<FavouriteRecord>)
    ensures !HasId(rs, id) ==> r == rs
    ensures HasId(rs, id) ==> |r| == |rs| - 1
    ensures HasId(rs, id) ==>
      var k := FirstWithId(rs, id).value;
      && (forall j :: 0 <= j < k ==> r[j] == rs[j] && rs[j].id != id)
      && (forall j :: k <= j < |r| ==> r[j] == rs[j + 1])
  {
    match FirstWithId(rs, id)
    case None => rs
    case Some(k) => rs[..k] + rs[k + 1..]
  }

  /** The deleted record is the only one that goes: the multiset loses exactly it. */
  lemma RemoveFirstWithIdMultiset(rs: seq<FavouriteRecord>, id: int)
    requires HasId(rs, id)
    ensures var k := FirstWithId(rs, id).value;
      multiset(RemoveFirstWithId(rs, id)) == multiset(rs) - multiset{rs[k]}
  {
    var k := FirstWithId(rs, id).value;
    assert rs == rs[..k] + [rs[k]] + rs[k + 1..];
    assert RemoveFirstWithId(rs, id) == rs[..k] + rs[k + 1..];
  }

  /** With unique identifiers, deleting by id removes the id completely and keeps uniqueness. */
  lemma RemoveFirstWithIdUnique(rs: seq<FavouriteRecord>, id: int)
    requires NoDuplicateIds(rs)
    ensures !HasId(RemoveFirstWithId(rs, id), id)
    ensures NoDuplicateIds(RemoveFirstWithId(rs, id))
    ensures forall other :: other != id ==> (HasId(RemoveFirstWithId(rs, id), other) <==> HasId(rs, other))
  {
    var r := RemoveFirstWithId(rs, id);
    if HasId(rs, id) {
      var k := FirstWithId(rs, id).value;
      forall j | 0 <= j < |r|
        ensures r[j].id != id
      {
        if j >= k {
          assert r[j] == rs[j + 1];
          assert rs[k].id != rs[j + 1].id;
        }
      }
      HasIdMeans(r, id);
      forall other | other != id
        ensures HasId(r, other) <==> HasId(rs, other)
      {
        HasIdMeans(r, other);
        HasIdMeans(rs, other);
        if HasId(rs, other) {
          var j :| 0 <= j < |rs| && rs[j].id == other;
          assert j != k;
          if j < k {
            assert r[j] == rs[j];
          } else {
            assert r[j - 1] == rs[j];
          }
        }
        if HasId(r, other) {
          var j :| 0 <= j < |r| && r[j].id == other;
          if j < k {
            assert rs[j] == r[j];
          } else {
            assert rs[j + 1] == r[j];
          }
        }
      }
    }
  }

  /** Appending the new record of a film whose id is absent keeps identifiers unique. */
  lemma AppendRecordUnique(rs: seq<FavouriteRecord>, film: Film)
    requires film.id.Some? && FitsInt32(film.id.value) && !HasId(rs, film.id.value)
    requires NoDuplicateIds(rs)
    ensures NoDuplicateIds(rs + [MakeRecord(film)])
    ensures HasId(rs + [MakeRecord(film)], film.id.value)
    ensures forall other :: other != film.id.value ==>
      (HasId(rs + [MakeRecord(film)], other) <==> HasId(rs, other))
  {
    var r := rs + [MakeRecord(film)];
    HasIdMeans(rs, film.id.value);
    HasIdMeans(r, film.id.value);
    assert r[|rs|].id == film.id.value;
    forall other | other != film.id.value
      ensures HasId(r, other) <==> HasId(rs, other)
    {
      HasIdMeans(r, other);
      HasIdMeans(rs, other);
      if HasId(r, other) {
        var j :| 0 <= j < |r| && r[j].id == other;
        assert j < |rs| && rs[j].id == other;
      }
      if HasId(rs, other) {
        var j :| 0 <= j < |rs| && rs[j].id == other;
        assert r[j] == rs[j];
      }
    }
  }

  /** A toggle that would add a film whose id `Int32(_:)` cannot represent: the process traps. */
  predicate Traps(rs: seq<FavouriteRecord>, film: Film) {
    film.id.Some? && !HasId(rs, film.id.value) && !FitsInt32(film.id.value)
  }

  /** The context after the toggle's decision: no id, ignore; id present, delete; else add. */
  function ToggledRecords(rs: seq<FavouriteRecord>, film: Film): seq<FavouriteRecord>
    requires !Traps(rs, film)
  {
    match film.id
    case None => rs
    case Some(id) => if HasId(rs, id) then RemoveFirstWithId(rs, id) else rs + [MakeRecord(film)]
  }

  /**
   * One toggle flips the film's id-membership, leaves every other id's membership as it was,
   * and keeps identifiers unique.
   */
  lemma ToggleFlipsMembership(rs: seq<FavouriteRecord>, film: Film)
    requires film.id.Some? && !Traps(rs, film) && NoDuplicateIds(rs)
    ensures HasId(ToggledRecords(rs, film), film.id.value) == !HasId(rs, film.id.value)
    ensures NoDuplicateIds(ToggledRecords(rs, film))
    ensures forall other :: other != film.id.value ==>
      (HasId(ToggledRecords(rs, film), other) <==> HasId(rs, other))
  {
    if HasId(rs, film.id.value) {
      RemoveFirstWithIdUnique(rs, film.id.value);
    } else {
      AppendRecordUnique(rs, film);
    }
  }

  lemma ToggleKeepsUnique(rs: seq<FavouriteRecord>, film: Film)
    requires !Traps(rs, film) && NoDuplicateIds(rs)
    ensures NoDuplicateIds(ToggledRecords(rs, film))
  {
    if film.id.Some? {
      ToggleFlipsMembership(rs, film);
    }
  }

  /**
   * Toggling the same film twice restores every id's membership; when the film was absent
   * to begin with, the very same list of records comes back.
   */
  lemma ToggleTwiceRestores(rs: seq<FavouriteRecord>, film: Film)
    requires film.id.Some? && !Traps(rs, film) && NoDuplicateIds(rs)
    ensures !Traps(ToggledRecords(rs, film), film)
    ensures forall id :: HasId(ToggledRecords(ToggledRecords(rs, film), film), id) <==> HasId(rs, id)
    ensures !HasId(rs, film.id.value) ==> ToggledRecords(ToggledRecords(rs, film), film) == rs
  {
    var once := ToggledRecords(rs, film);
    ToggleFlipsMembership(rs, film);
    ToggleFlipsMembership(once, film);
    if !HasId(rs, film.id.value) {
      var k := FirstWithId(once, film.id.value).value;
      HasIdMeans(rs, film.id.value);
      assert k == |rs|;
      assert once[..k] == rs;
    }
  }

  /**
   * Without unique identifiers toggling is not an involution: with two records for id 7,
   * a toggle deletes only the first and the id is still a favourite afterwards.
   */
  lemma DuplicateIdsSurviveDelete()
    ensures var rec := FavouriteRecord(7, true, None, None, None, Some("A"));
      var film := NewFilm(None, None, None, Some(7), None, None, None, None, None, Some("A"), None);
      && HasId([rec, rec], 7)
      && ToggledRecords([rec, rec], film) == [rec]
      && HasId(ToggledRecords([rec, rec], film), 7)
  {
    var rec := FavouriteRecord(7, true, None, None, None, Some("A"));
    assert FirstWithId([rec, rec], 7) == Some(0);
    assert FirstWithId([rec], 7) == Some(0);
  }

  /**
   * The two keys disagree. A film can be reported favourite by title while no record has its
   * id (another film of the same title was saved), and a film whose id is saved is reported
   * not favourite when its record's title differs.
   */
  lemma TitleAndIdVerdictsDiffer()
    ensures var saved := FavouriteRecord(1, false, None, None, None, Some("Dune"));
      var remake := NewFilm(None, None, None, Some(2), None, None, None, None, None, Some("Dune"), None);
      var renamed := NewFilm(None, None, None, Some(1), None, None, None, None, None, Some("Dune: Part One"), None);
      && IsFavouriteIn([saved], remake) == Some(true) && !HasId([saved], 2)
      && IsFavouriteIn([saved], renamed) == Some(false) && HasId([saved], 1)
  {
    var saved := FavouriteRecord(1, false, None, None, None, Some("Dune"));
    assert [saved][0] == saved;
    assert FirstWithId([saved], 2).None?;
    assert FirstWithId([saved], 1) == Some(0);
    assert "Dune" != "Dune: Part One";
  }

  /** Where titles identify records exactly as ids do, the title verdict is id-membership. */
  lemma TitleVerdictAgreesWhenKeysAgree(cache: seq<FavouriteRecord>, film: Film)
    requires film.id.Some? && film.title.Some?
    requires forall j :: 0 <= j < |cache| ==> (cache[j].title == film.title <==> cache[j].id == film.id.value)
    ensures IsFavouriteIn(cache, film) == Some(HasId(cache, film.id.value))
  {
    HasIdMeans(cache, film.id.value);
  }

  /** What happened to one toggle request sent on `filmSubject`. */
  datatype ToggleOutcome =
    | Dropped    // the subject had already completed with a failure, so the sink never ran
    | Ignored    // the film has no id
    | Trapped    // `Int32(id)` trapped while building the record
    | Added      // a record was built; the list was re-fetched and published
    | Deleted    // the matching record was deleted; the list was re-fetched and published
  {
    /** The re-fetch ran, the list went out on `favouriteFilmsSubject`, the film on `isFavouriteSubject`. */
    predicate Published() {
      Added? || Deleted?
    }
  }

  class FavouriteService {
    /** The `FavouriteFilm` objects registered in the managed object context, pending changes included. */
    var context: seq<FavouriteRecord>
    /** The cached `favouriteFilms` array, replaced by each fetch. */
    var favouriteFilms: seq<FavouriteRecord>
    /** `managedObjectContext != nil`: the persistent store loaded. */
    var hasContext: bool
    /** `filmSubject` has not completed, so its sink still receives toggle requests. */
    var acceptsToggles: bool

    /**
     * Between events the cache mirrors the context (the fetch after a toggle is taken as
     * immediate), and a failed store load has also completed `filmSubject`.
     */
    ghost predicate Valid()
      reads this
    {
      favouriteFilms == context && (acceptsToggles ==> hasContext)
    }

    /**
     * `init`: `setup` loads the store (a failure completes `filmSubject` before the sink
     * subscribes), then `fetchFilms` fills the cache from what the store holds.
     */
    constructor (storeLoads: bool, persisted: seq<FavouriteRecord>)
      ensures Valid()
      ensures hasContext == storeLoads && acceptsToggles == storeLoads
      ensures context == (if storeLoads then persisted else [])
    {
      hasContext := storeLoads;
      acceptsToggles := storeLoads;
      context := if storeLoads then persisted else [];
      favouriteFilms := if storeLoads then persisted else [];
    }

    /** `isFavourite(_:)`, over the cache. */
    function IsFavourite(film: Film): Option<bool>
      reads this
    {
      IsFavouriteIn(favouriteFilms, film)
    }

    /**
     * `addToFavourite`: without a context or an id nothing happens; otherwise a record built
     * from the film joins the context. A failing `save()` completes `filmSubject`.
     */
    method AddToFavourite(film: Film, saveFails: bool) returns (trapped: bool)
      modifies this
      ensures favouriteFilms == old(favouriteFilms) && hasContext == old(hasContext)
      ensures trapped <==> old(hasContext) && film.id.Some? && !FitsInt32(film.id.value)
      ensures !old(hasContext) || film.id.None? || trapped ==>
        context == old(context) && acceptsToggles == old(acceptsToggles)
      ensures old(hasContext) && film.id.Some? && !trapped ==>
        context == old(context) + [MakeRecord(film)] && acceptsToggles == (old(acceptsToggles) && !saveFails)
    {
      trapped := false;
      if !hasContext || film.id.None? {
        return;
      }
      if !FitsInt32(film.id.value) {
        trapped := true;
        return;
      }
      context := context + [MakeRecord(film)];
      if saveFails {
        acceptsToggles := false;
      }
    }

    /**
     * `deleteFromFavourite`: without a context or an id nothing happens; otherwise the first
     * cached record with the id is deleted from the context, if there is one. A failing
     * `save()` completes `filmSubject`.
     */
    method DeleteFromFavourite(film: Film, saveFails: bool)
      requires favouriteFilms == context
      modifies this
      ensures favouriteFilms == old(favouriteFilms) && hasContext == old(hasContext)
      ensures !old(hasContext) || film.id.None? ==>
        context == old(context) && acceptsToggles == old(acceptsToggles)
      ensures old(hasContext) && film.id.Some? ==>
        context == RemoveFirstWithId(old(context), film.id.value)
        && acceptsToggles == (old(acceptsToggles) && !saveFails)
    {
      if !hasContext || film.id.None? {
        return;
      }
      var found := FirstWithId(favouriteFilms, film.id.value);
      if found.Some? {
        context := context[..found.value] + context[found.value + 1..];
      }
      if saveFails {
        acceptsToggles := false;
      }
    }

    /** `fetchFilms`: the cache is replaced by the context's records, which are published. */
    method FetchFilms() returns (published: seq<FavouriteRecord>)
      modifies this`favouriteFilms
      ensures favouriteFilms == context && published == context
    {
      favouriteFilms := context;
      published := favouriteFilms;
    }

    /** The whole effect of one toggle request, from the state before it to the state after. */
    twostate predicate Toggled(film: Film, outcome: ToggleOutcome)
      reads this
    {
      && hasContext == old(hasContext)
      && (!old(acceptsToggles) ==> outcome == Dropped)
      && (old(acceptsToggles) && film.id.None? ==> outcome == Ignored)
      && (old(acceptsToggles) && film.id.Some? ==>
            outcome == (if Traps(old(context), film) then Trapped
                        else if HasId(old(context), film.id.value) then Deleted
                        else Added))
      && (!outcome.Published() ==>
            context == old(context) && favouriteFilms == old(favouriteFilms)
            && acceptsToggles == old(acceptsToggles))
      && (outcome.Published() ==>
            !Traps(old(context), film) && context == ToggledRecords(old(context), film))
      && (NoDuplicateIds(old(context)) ==> NoDuplicateIds(context))
    }

    /**
     * The `filmSubject` sink: a film without an id is ignored; a film whose id is in the cache is
     * deleted, any other is added (exactly one of the two runs); then the cache is re-fetched
     * and published and the film is sent on `isFavouriteSubject`.
     */
    method Toggle(film: Film, saveFails: bool) returns (outcome: ToggleOutcome)
      requires Valid()
      modifies this
      ensures Valid()
      ensures Toggled(film, outcome)
      ensures outcome.Published() ==> acceptsToggles == !saveFails
    {
      if !acceptsToggles {
        return Dropped;
      }
      if film.id.None? {
        return Ignored;
      }
      var id := film.id.value;
      if FirstWithId(favouriteFilms, id).Some? {
        DeleteFromFavourite(film, saveFails);
        outcome := Deleted;
      } else {
        var trapped := AddToFavourite(film, saveFails);
        if trapped {
          return Trapped;
        }
        outcome := Added;
      }
      var published := FetchFilms();
      if NoDuplicateIds(old(context)) {
        ToggleKeepsUnique(old(context), film);
      }
    }
  }

  /** A client of the store alone: two settled toggles of one film restore its membership. */
  method ToggleTwice(store: FavouriteService, film: Film)
    requires store.Valid() && store.acceptsToggles && NoDuplicateIds(store.context)
    requires film.id.Some? && FitsInt32(film.id.value)
    modifies store
    ensures store.Valid()
    ensures forall id :: HasId(store.context, id) <==> HasId(old(store.context), id)
  {
    var first := store.Toggle(film, false);
    var second := store.Toggle(film, false);
    ToggleTwiceRestores(old(store.context), film);
  }
}
