/**
 * The filter side panel (app/components/FilterMenu.tsx): the genre and
 * language options, the language order with four languages pinned first, the
 * search boxes over both lists, and the draft filters that are edited per
 * field and then applied or reset.
 */
module FilterMenu {
  import opened Wrappers
  import opened Seqs
  import Text
  import Ordering
  import Lookup
  import opened FilterContext

  /** The genre names, in table order. */
  function GenreOptions(): (r: seq<string>)
    ensures |r| == |Lookup.Genres()|
    ensures forall i :: 0 <= i < |r| ==> r[i] == Lookup.Genres()[i].name
  {
    seq(|Lookup.Genres()|, i requires 0 <= i < |Lookup.Genres()| => Lookup.Genres()[i].name)
  }

  /** The language names, in table order. */
  function LanguageOptions(): (r: seq<string>)
    ensures |r| == |Lookup.Languages()|
    ensures forall i :: 0 <= i < |r| ==> r[i] == Lookup.Languages()[i].name
  {
    seq(|Lookup.Languages()|, i requires 0 <= i < |Lookup.Languages()| => Lookup.Languages()[i].name)
  }

  const PriorityLanguages: seq<string> := ["English", "Hindi", "Korean", "Japanese"]

  predicate IsPriority(name: string) { name in PriorityLanguages }

  predicate NotPriority(name: string) { !IsPriority(name) }

  /** The four pinned languages, then every other name in ascending order. */
  function SortedLanguages(): (r: seq<string>)
    ensures |r| >= |PriorityLanguages| && r[..|PriorityLanguages|] == PriorityLanguages
  {
    PriorityLanguages + Ordering.Sort(Filter(LanguageOptions(), NotPriority))
  }

  /** The pinned names come first and the rest is sorted. */
  lemma SortedLanguagesOrder()
    ensures SortedLanguages()[..4] == PriorityLanguages
    ensures Ordering.Sorted(SortedLanguages()[4..])
    ensures forall x :: x in SortedLanguages()[4..] <==> x in LanguageOptions() && !IsPriority(x)
  {
    PinnedThenSorted(LanguageOptions());
  }

  /** The same, for any list of names. */
  lemma PinnedThenSorted(o: seq<string>)
    ensures (PriorityLanguages + Ordering.Sort(Filter(o, NotPriority)))[..4] == PriorityLanguages
    ensures Ordering.Sorted((PriorityLanguages + Ordering.Sort(Filter(o, NotPriority)))[4..])
    ensures forall x :: x in (PriorityLanguages + Ordering.Sort(Filter(o, NotPriority)))[4..] <==> x in o && !IsPriority(x)
  {
    var others := Filter(o, NotPriority);
    var r := PriorityLanguages + Ordering.Sort(others);
    assert r[..4] == PriorityLanguages;
    assert r[4..] == Ordering.Sort(others);
    Ordering.SortSameElements(others);
  }

  /** The table names are pairwise distinct and include the four pinned ones. */
  lemma LanguageOptionsFacts()
    ensures NoDuplicates(LanguageOptions())
    ensures forall x :: x in PriorityLanguages ==> x in LanguageOptions()
  {
    Lookup.LanguageNamesDistinct();
    var o := LanguageOptions();
    assert o[1] == "English" && o[11] == "Hindi" && o[9] == "Korean" && o[8] == "Japanese";
  }

  /**
   * Pinning distinct names of a duplicate-free list in front of a
   * rearrangement of the remaining names gives back the same names.
   */
  lemma PinnedPermutation(o: seq<string>, pinned: seq<string>, unpinned: string -> bool, rest: seq<string>)
    requires NoDuplicates(o) && NoDuplicates(pinned)
    requires forall x :: x in pinned ==> x in o
    requires forall x :: unpinned(x) <==> x !in pinned
    requires multiset(rest) == multiset(Filter(o, unpinned))
    ensures multiset(pinned + rest) == multiset(o)
  {
    forall x ensures multiset(pinned + rest)[x] == multiset(o)[x] {
      FilterCount(o, unpinned, x);
      NoDuplicatesCount(o, x);
      NoDuplicatesCount(pinned, x);
    }
  }

  /** The language list holds every table name exactly once. */
  lemma SortedLanguagesIsPermutation()
    ensures multiset(SortedLanguages()) == multiset(LanguageOptions())
    ensures NoDuplicates(SortedLanguages())
  {
    LanguageOptionsFacts();
    PinnedSortedPermutation(LanguageOptions());
  }

  /** The same, for any duplicate-free list that holds the pinned names. */
  lemma PinnedSortedPermutation(o: seq<string>)
    requires NoDuplicates(o) && forall x :: x in PriorityLanguages ==> x in o
    ensures multiset(PriorityLanguages + Ordering.Sort(Filter(o, NotPriority))) == multiset(o)
    ensures NoDuplicates(PriorityLanguages + Ordering.Sort(Filter(o, NotPriority)))
  {
    PriorityLanguagesDistinct();
    var rest := Ordering.Sort(Filter(o, NotPriority));
    PinnedPermutation(o, PriorityLanguages, NotPriority, rest);
    PermutationNoDuplicates(o, PriorityLanguages + rest);
  }

  lemma PriorityLanguagesDistinct()
    ensures NoDuplicates(PriorityLanguages)
  {
  }

  /** The options whose lower-cased text contains an already lower-cased term. */
  function SearchLowered(options: seq<string>, loweredTerm: string): seq<string>
  {
    Filter(options, (o: string) => Text.Includes(Text.Lower(o), loweredTerm))
  }

  /** The options a search box shows. */
  function FilterBySearch(options: seq<string>, term: string): (r: seq<string>)
    ensures forall x :: x in r <==> x in options && Text.Includes(Text.Lower(x), Text.Lower(term))
  {
    SearchLowered(options, Text.Lower(term))
  }

  /** Search keeps the options' order, and an empty term keeps them all. */
  lemma SearchKeepsOrder(options: seq<string>, term: string)
    ensures IsSubsequence(FilterBySearch(options, term), options)
    ensures term == [] ==> FilterBySearch(options, term) == options
  {
    FilterIsSubsequence(options, (o: string) => Text.Includes(Text.Lower(o), Text.Lower(term)));
    if term == [] {
      forall x | x in options ensures Text.Includes(Text.Lower(x), Text.Lower(term)) {
        Text.IncludesEmpty(Text.Lower(x));
      }
      FilterAll(options, (o: string) => Text.Includes(Text.Lower(o), Text.Lower(term)));
    }
  }

  /** The case of the search term does not matter. */
  lemma SearchIgnoresCase(options: seq<string>, term: string)
    ensures FilterBySearch(options, Text.Upper(term)) == FilterBySearch(options, term)
    ensures FilterBySearch(options, Text.Lower(term)) == FilterBySearch(options, term)
  {
    Text.LowerIdempotent(term);
  }

  /** The filters a reset stores: genre and language only, no release date. */
  const ResetFilters: Filters := Filters(All, All, None)

  /** The panel's own state: the draft filters, the two search terms, and whether it asked to close. */
  class Panel {
    var tempFilters: Filters
    var genreSearch: string
    var languageSearch: string
    var closeRequested: bool

    /** The draft starts as the filters the panel was opened with. */
    constructor (filters: Filters)
      ensures tempFilters == filters && genreSearch == [] && languageSearch == [] && !closeRequested
    {
      tempFilters := filters;
      genreSearch := [];
      languageSearch := [];
      closeRequested := false;
    }

    function FilteredGenres(): (r: seq<string>)
      reads this
      ensures forall x :: x in r <==> x in GenreOptions() && Text.Includes(Text.Lower(x), Text.Lower(genreSearch))
    {
      FilterBySearch(GenreOptions(), genreSearch)
    }

    function FilteredLanguages(): (r: seq<string>)
      reads this
      ensures forall x :: x in r <==> x in SortedLanguages() && Text.Includes(Text.Lower(x), Text.Lower(languageSearch))
    {
      FilterBySearch(SortedLanguages(), languageSearch)
    }

    method SetGenreSearch(term: string)
      modifies this
      ensures genreSearch == term
      ensures tempFilters == old(tempFilters) && languageSearch == old(languageSearch) && closeRequested == old(closeRequested)
    {
      genreSearch := term;
    }

    method SetLanguageSearch(term: string)
      modifies this
      ensures languageSearch == term
      ensures tempFilters == old(tempFilters) && genreSearch == old(genreSearch) && closeRequested == old(closeRequested)
    {
      languageSearch := term;
    }

    /** Picking a genre changes only the draft's genre. */
    method SelectGenre(value: string)
      modifies this
      ensures tempFilters == old(tempFilters).(genre := value)
      ensures genreSearch == old(genreSearch) && languageSearch == old(languageSearch) && closeRequested == old(closeRequested)
    {
      tempFilters := tempFilters.(genre := value);
    }

    /** Picking a language changes only the draft's language. */
    method SelectLanguage(value: string)
      modifies this
      ensures tempFilters == old(tempFilters).(language := value)
      ensures genreSearch == old(genreSearch) && languageSearch == old(languageSearch) && closeRequested == old(closeRequested)
    {
      tempFilters := tempFilters.(language := value);
    }

    /** Commits exactly the draft, then asks to close. */
    method Apply(target: FilterStore)
      modifies this, target
      ensures target.filters == old(tempFilters) && tempFilters == old(tempFilters)
      ensures genreSearch == old(genreSearch) && languageSearch == old(languageSearch)
      ensures closeRequested
    {
      target.SetFilters(tempFilters);
      closeRequested := true;
    }

    /** Stores the reset filters in both the draft and the target, then asks to close. */
    method Reset(target: FilterStore)
      modifies this, target
      ensures tempFilters == ResetFilters && target.filters == ResetFilters
      ensures genreSearch == old(genreSearch) && languageSearch == old(languageSearch)
      ensures closeRequested
    {
      tempFilters := ResetFilters;
      target.SetFilters(ResetFilters);
      closeRequested := true;
    }
  }
}
