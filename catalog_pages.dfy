/**
 * The three catalogue pages (app/page.tsx, app/movies/page.tsx,
 * app/tv-shows/page.tsx): the rows they show, trimmed from the fetched
 * provider lists, the slugs of their "Show All" links, and the movies page's
 * filter handlers.
 */
module CatalogPages {
  import opened Wrappers
  import opened Seqs
  import Text
  import opened Api
  import opened FilterContext

  const RowLength: nat := 10

  predicate HasShows(p: Provider) { |p.shows| > 0 }

  predicate PosterNotNull(s: Show) { s.posterUrl.Some? }

  predicate AnyShow(s: Show) { true }

  /** One provider with its shows cut to those kept, then to the first ten. */
  function TrimProvider(p: Provider, keep: Show -> bool): (r: Provider)
    ensures r.providerName == p.providerName && r.providerKey == p.providerKey
    ensures |r.shows| == if |Filter(p.shows, keep)| < RowLength then |Filter(p.shows, keep)| else RowLength
    ensures r.shows == Filter(p.shows, keep)[..|r.shows|]
    ensures forall s :: s in r.shows ==> s in p.shows && keep(s)
  {
    var kept := Filter(p.shows, keep);
    var shows := Take(kept, RowLength);
    assert forall s :: s in shows ==> s in kept;
    p.(shows := shows)
  }

  /** `providers.map(...)`: every provider trimmed, in order. */
  function TrimAll(providers: seq<Provider>, keep: Show -> bool): (r: seq<Provider>)
    ensures |r| == |providers|
    ensures forall i :: 0 <= i < |providers| ==> r[i] == TrimProvider(providers[i], keep)
  {
    seq(|providers|, i requires 0 <= i < |providers| => TrimProvider(providers[i], keep))
  }

  /** Every provider trimmed, in order, and those left with no show dropped. */
  function Rows(providers: seq<Provider>, keep: Show -> bool): (r: seq<Provider>)
    ensures forall q :: q in r ==> 0 < |q.shows| <= RowLength
    ensures forall q, s :: q in r && s in q.shows ==> keep(s)
    ensures forall i :: 0 <= i < |providers| && HasShows(TrimAll(providers, keep)[i]) ==> TrimAll(providers, keep)[i] in r
    ensures forall q :: q in r ==> exists i :: 0 <= i < |providers| && q == TrimAll(providers, keep)[i]
  {
    var trimmed := TrimAll(providers, keep);
    var r := Filter(trimmed, HasShows);
    assert forall i :: 0 <= i < |providers| ==> trimmed[i] in trimmed;
    r
  }

  /** The rows keep the providers' order. */
  lemma RowsKeepOrder(providers: seq<Provider>, keep: Show -> bool)
    ensures IsSubsequence(Rows(providers, keep), TrimAll(providers, keep))
  {
    FilterIsSubsequence(TrimAll(providers, keep), HasShows);
  }

  /** The home and TV pages: the first ten shows of each provider. */
  function HomeRows(providers: seq<Provider>): (r: seq<Provider>)
    ensures forall q :: q in r ==> 0 < |q.shows| <= RowLength
    ensures forall q :: q in r ==> exists i :: 0 <= i < |providers| && q.providerName == providers[i].providerName
                                             && q.shows == Take(providers[i].shows, RowLength)
  {
    HomeRowsArePrefixes(providers);
    Rows(providers, AnyShow)
  }

  /** The movies page: shows whose poster is null are removed before the cut to ten. */
  function MovieRows(providers: seq<Provider>): (r: seq<Provider>)
    ensures forall q, s :: q in r && s in q.shows ==> s.posterUrl.Some?
  {
    Rows(providers, PosterNotNull)
  }

  /** On the home and TV pages every show is kept, so a row is the first ten shows as they came. */
  lemma HomeRowIsPrefix(p: Provider)
    ensures TrimProvider(p, AnyShow).shows == Take(p.shows, RowLength)
  {
    FilterAll(p.shows, AnyShow);
  }

  lemma HomeRowsArePrefixes(providers: seq<Provider>)
    ensures forall i :: 0 <= i < |providers| ==> TrimAll(providers, AnyShow)[i].shows == Take(providers[i].shows, RowLength)
  {
    forall i | 0 <= i < |providers| ensures TrimAll(providers, AnyShow)[i].shows == Take(providers[i].shows, RowLength) {
      HomeRowIsPrefix(providers[i]);
    }
  }

  datatype PageKind = HomePage | MoviesPage | TvPage

  function RowsFor(kind: PageKind, shows: seq<Provider>): (r: seq<Provider>)
    ensures forall q :: q in r ==> 0 < |q.shows| <= RowLength
    ensures kind == MoviesPage ==> forall q, s :: q in r && s in q.shows ==> s.posterUrl.Some?
  {
    if kind == MoviesPage then MovieRows(shows) else HomeRows(shows)
  }

  /** The rows state of a catalogue page. */
  class CatalogView {
    const kind: PageKind
    var filteredContents: seq<Provider>
    var isPageLoaded: bool

    constructor (kind: PageKind)
      ensures this.kind == kind && filteredContents == [] && !isPageLoaded
    {
      this.kind := kind;
      filteredContents := [];
      isPageLoaded := false;
    }

    /** The effect on the hook's output: the rows are recomputed only once loading is over. */
    method Refresh(isLoading: bool, shows: seq<Provider>)
      modifies this
      ensures isLoading ==> filteredContents == old(filteredContents) && isPageLoaded == old(isPageLoaded)
      ensures !isLoading ==> filteredContents == RowsFor(kind, shows) && isPageLoaded
    {
      if !isLoading {
        filteredContents := RowsFor(kind, shows);
        isPageLoaded := true;
      }
    }
  }

  /** The home and TV pages keep their own filter cell, which starts with all three filters "all". */
  method NewPageFilters() returns (store: FilterStore)
    ensures fresh(store) && store.filters == Filters(All, All, Some(All))
  {
    store := new FilterStore();
  }

  /** The movies page's filter handling over the shared store. */
  class MoviesFilters {
    var filterVersion: nat

    constructor ()
      ensures filterVersion == 0
    {
      filterVersion := 0;
    }

    /** Replaces the filters and counts one more change. */
    method HandleFilterChange(store: FilterStore, newFilters: Filters)
      modifies this, store
      ensures store.filters == newFilters && filterVersion == old(filterVersion) + 1
    {
      store.SetFilters(newFilters);
      filterVersion := filterVersion + 1;
    }

    /** The empty-state button: all three filters back to "all", without counting a change. */
    method ResetFilters(store: FilterStore)
      modifies store
      ensures store.filters == Filters(All, All, Some(All)) && filterVersion == old(filterVersion)
    {
      store.SetFilters(Filters(All, All, Some(All)));
    }
  }

  /** The home and movies link slug: the name lower-cased with every whitespace run removed. */
  function PlatformSlug(providerName: string): (r: string)
    ensures |r| <= |providerName|
  {
    Text.RemoveWhitespace(Text.Lower(providerName))
  }

  /** A slug holds no whitespace and no capital, and only characters of the lower-cased name. */
  lemma PlatformSlugChars(providerName: string)
    ensures forall c :: c in PlatformSlug(providerName) ==>
      !Text.IsJsWhitespace(c) && !Text.IsAsciiUpper(c) && c in Text.Lower(providerName)
  {
    Text.LowerHasNoCapitals(providerName);
    Text.RemoveWhitespaceChars(Text.Lower(providerName));
  }

  /** The TV link slug: the name lower-cased with its first space, and only that one, made a hyphen. */
  function TvPlatformSlug(providerName: string): (r: string)
    ensures |r| == |providerName|
    ensures ' ' !in Text.Lower(providerName) ==> r == Text.Lower(providerName)
  {
    var lowered := Text.Lower(providerName);
    if ' ' in lowered then Text.ReplaceFirst(lowered, ' ', '-')
    else Text.ReplaceFirstAbsent(lowered, ' ', '-'); Text.ReplaceFirst(lowered, ' ', '-')
  }

  /** How the platform page finds the provider a slug names. */
  predicate PlatformMatches(providerName: string, slug: string): (r: bool)
    ensures r ==> forall c :: c in Text.Lower(slug) ==> !Text.IsJsWhitespace(c)
  {
    PlatformSlugChars(providerName);
    PlatformSlug(providerName) == Text.Lower(slug)
  }

  /** A home or movies link always leads to the platform page of its own provider. */
  lemma PlatformSlugResolves(providerName: string)
    ensures PlatformMatches(providerName, PlatformSlug(providerName))
  {
    PlatformSlugChars(providerName);
    Text.LowerWithoutCapitals(PlatformSlug(providerName));
  }

  /** Removing whitespace again changes nothing: the slug is stable. */
  lemma PlatformSlugStable(providerName: string)
    ensures PlatformSlug(PlatformSlug(providerName)) == PlatformSlug(providerName)
  {
    var s := PlatformSlug(providerName);
    PlatformSlugChars(providerName);
    Text.LowerWithoutCapitals(s);
    Text.RemoveWhitespaceNoop(s);
  }

  /** The platform page's slug never holds a hyphen unless the name does. */
  lemma PlatformSlugHyphen(providerName: string)
    ensures '-' in PlatformSlug(providerName) ==> '-' in providerName
  {
    PlatformSlugChars(providerName);
    Text.LowerKeepsOthers(providerName, '-');
  }

  /** The TV slug of a name with a space holds a hyphen, and keeps it when lower-cased. */
  lemma TvSlugHyphen(providerName: string)
    requires ' ' in providerName
    ensures '-' in Text.Lower(TvPlatformSlug(providerName))
  {
    var lowered := Text.Lower(providerName);
    Text.LowerKeepsOthers(providerName, ' ');
    var i := FirstSpace(lowered);
    Text.ReplaceFirstAt(lowered, ' ', '-', i);
    var tv := TvPlatformSlug(providerName);
    assert tv[i] == '-';
    Text.LowerKeepsOthers(tv, '-');
  }

  /** The position of the first space. */
  function FirstSpace(s: string): (i: nat)
    requires ' ' in s
    ensures i < |s| && s[i] == ' ' && ' ' !in s[..i]
  {
    if s[0] == ' ' then 0
    else
      var i := FirstSpace(s[1..]);
      assert s[..i + 1] == [s[0]] + s[1..][..i];
      i + 1
  }

  /**
   * A TV link for a provider whose name has a space and no hyphen never
   * matches on the platform page: the link has a hyphen, the page's slug
   * cannot.
   */
  lemma TvSlugDoesNotResolve(providerName: string)
    requires ' ' in providerName && '-' !in providerName
    ensures !PlatformMatches(providerName, TvPlatformSlug(providerName))
  {
    PlatformSlugHyphen(providerName);
    TvSlugHyphen(providerName);
  }

  lemma AmazonTvLinkBroken()
    ensures !PlatformMatches("Amazon Prime Video", TvPlatformSlug("Amazon Prime Video"))
  {
    assert "Amazon Prime Video"[6] == ' ';
    TvSlugDoesNotResolve("Amazon Prime Video");
  }

  /** Names joined by a space have the slugs of their words, joined without it. */
  lemma PlatformSlugJoin(a: string, b: string)
    ensures PlatformSlug(a + " " + b) == PlatformSlug(a) + PlatformSlug(b)
  {
    var la, lb := Text.Lower(a), Text.Lower(b);
    Text.LowerAppend(a + " ", b);
    Text.LowerAppend(a, " ");
    assert Text.Lower(a + " " + b) == la + " " + lb;
    Text.RemoveWhitespaceAppend(la + " ", lb);
    Text.RemoveWhitespaceAppend(la, " ");
  }
}
