/**
 * The quick-filter chips (app/components/QuickFilters.tsx): a fixed list of
 * language and genre shortcuts, the update a click applies to the shared
 * filters, and which chip is shown as active.
 */
module QuickFilters {
  import opened Wrappers
  import Lookup
  import opened FilterContext

  datatype FilterKind = LanguageKind | GenreKind | ReleaseDateKind

  datatype QuickFilter = QuickFilter(name: string, kind: FilterKind, value: string)

  /** The chips, in display order: five languages by code, four genres by name. */
  const Chips: seq<QuickFilter> := [
    QuickFilter("Hindi", LanguageKind, "hi"),
    QuickFilter("English", LanguageKind, "en"),
    QuickFilter("Korean", LanguageKind, "ko"),
    QuickFilter("Japanese", LanguageKind, "ja"),
    QuickFilter("Kannada", LanguageKind, "kn"),
    QuickFilter("Adventure", GenreKind, "Adventure"),
    QuickFilter("Horror", GenreKind, "Horror"),
    QuickFilter("Comedy", GenreKind, "Comedy"),
    QuickFilter("Documentary", GenreKind, "Documentary")]

  /** The click handler's test for "this chip is already in force". */
  predicate IsSame(prev: Filters, f: QuickFilter)
  {
    (f.kind == LanguageKind && prev.language == f.value) || (f.kind == GenreKind && prev.genre == f.value)
  }

  /**
   * The updater a click passes to `setFilters`. Clicking the chip in force
   * clears language and genre; a language chip sets the language and clears
   * the genre; any other chip sets the genre and clears the language when its
   * name has genre ids, and otherwise leaves the filters as they were.
   */
  function Click(prev: Filters, f: QuickFilter): (r: Filters)
    ensures r.releaseDate == prev.releaseDate
    ensures IsSame(prev, f) ==> r.language == All && r.genre == All
    ensures !IsSame(prev, f) && f.kind == LanguageKind ==> r.language == f.value && r.genre == All
    ensures !IsSame(prev, f) && f.kind != LanguageKind && |Lookup.GetGenreIds(f.name)| > 0 ==> r.language == All && r.genre == f.value
    ensures !IsSame(prev, f) && f.kind != LanguageKind && |Lookup.GetGenreIds(f.name)| == 0 ==> r == prev
  {
    if IsSame(prev, f) then prev.(language := All, genre := All)
    else if f.kind == LanguageKind then prev.(language := f.value, genre := All)
    else if |Lookup.GetGenreIds(f.name)| > 0 then prev.(language := All, genre := f.value)
    else prev
  }

  /** Whether a chip is shown as active: its own field holds its value; release-date chips never are. */
  function IsActive(filters: Filters, f: QuickFilter): (b: bool)
    ensures f.kind == LanguageKind ==> (b <==> filters.language == f.value)
    ensures f.kind == GenreKind ==> (b <==> filters.genre == f.value)
    ensures f.kind == ReleaseDateKind ==> !b
  {
    match f.kind
    case LanguageKind => filters.language == f.value
    case GenreKind => filters.genre == f.value
    case ReleaseDateKind => false
  }

  /** A click resets the filters exactly when it lands on a chip shown as active. */
  lemma ResetsIffActive(prev: Filters, f: QuickFilter)
    ensures IsSame(prev, f) <==> IsActive(prev, f)
  {
  }

  /** Every genre chip names a genre of the table, so the fallback never applies to the listed chips. */
  lemma {:induction false} ListedGenresAreKnown(i: nat)
    requires i < |Chips| && Chips[i].kind == GenreKind
    ensures |Lookup.GetGenreIds(Chips[i].name)| > 0
  {
    Lookup.GenreIdsDisjoint();
    var k := if i == 5 then 1 else if i == 6 then 10 else if i == 7 then 3 else 5;
    assert Lookup.Genres()[k].name == Chips[i].name;
    Lookup.GenreIdsNonEmptyIff(Chips[i].name);
  }

  /** After a click on a listed chip, at most one of language and genre is not "all". */
  lemma AtMostOneFieldSet(prev: Filters, i: nat)
    requires i < |Chips|
    ensures Click(prev, Chips[i]).language == All || Click(prev, Chips[i]).genre == All
  {
    var f := Chips[i];
    if !IsSame(prev, f) && f.kind != LanguageKind {
      assert f.kind == GenreKind;
      ListedGenresAreKnown(i);
    }
  }

  /** A click on an inactive listed chip makes it active; a second click clears both fields. */
  lemma ToggleCycle(prev: Filters, i: nat)
    requires i < |Chips| && !IsActive(prev, Chips[i])
    ensures IsActive(Click(prev, Chips[i]), Chips[i])
    ensures Click(Click(prev, Chips[i]), Chips[i]) == prev.(language := All, genre := All)
    ensures !IsActive(Click(Click(prev, Chips[i]), Chips[i]), Chips[i])
  {
    if Chips[i].kind == GenreKind {
      ListedGenresAreKnown(i);
    }
  }

  /** `handleFilterClick`: applies the updater to the shared store. */
  method HandleFilterClick(store: FilterStore, f: QuickFilter)
    modifies store
    ensures store.filters == Click(old(store.filters), f)
  {
    store.SetFilters(Click(store.filters, f));
  }
}
