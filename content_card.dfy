/**
 * One show's card (app/components/ContentCard.tsx): whether it renders, what
 * its search button does, and the label of its type.
 */
module ContentCard {
  import opened Wrappers
  import opened Api

  /** Nothing is rendered for a show without a truthy poster. */
  predicate Renders(show: Show): (r: bool)
    ensures r <==> show.posterUrl.Some? && show.posterUrl.value != ""
  {
    Truthy(show.posterUrl)
  }

  /**
   * `new Map(entries.map(([slug, id]) => [id, slug]))`: the table turned
   * round, entry by entry in table order, so a later entry for the same id
   * would replace an earlier one.
   */
  function ReverseMap(entries: seq<(string, int)>): (m: map<int, string>)
    ensures forall id :: id in m <==> exists i :: 0 <= i < |entries| && entries[i].1 == id
  {
    if entries == [] then map[]
    else
      var init := entries[..|entries| - 1];
      var last := entries[|entries| - 1];
      var m := ReverseMap(init)[last.1 := last.0];
      assert forall i :: 0 <= i < |init| ==> init[i] == entries[i];
      m
  }

  /** With pairwise distinct ids, every entry's id maps back to its own slug. */
  lemma {:induction false} ReverseMapInverts(entries: seq<(string, int)>, i: nat)
    requires forall a, b :: 0 <= a < b < |entries| ==> entries[a].1 != entries[b].1
    requires i < |entries|
    ensures ReverseMap(entries)[entries[i].1] == entries[i].0
  {
    var init := entries[..|entries| - 1];
    if i < |entries| - 1 {
      assert init[i] == entries[i];
      ReverseMapInverts(init, i);
    }
  }

  /** The slug that the search query names for a provider id: "null" for an id not in the table. */
  function ReverseProviderName(id: Option<int>): (r: string)
    ensures id.None? ==> r == "null"
  {
    var m := ReverseMap(ProviderKeys);
    if id.Some? && id.value in m then m[id.value] else "null"
  }

  /** The reverse lookup is the exact inverse of the provider-key table, both ways. */
  lemma ReverseProviderNameInverse(slug: string, id: int)
    ensures ProviderKey(slug) == Some(id) ==> ReverseProviderName(Some(id)) == slug
    ensures ReverseProviderName(Some(id)) == slug && slug != "null" ==> ProviderKey(slug) == Some(id)
  {
    if ProviderKey(slug) == Some(id) {
      ReverseOfListedSlug(slug, id);
    }
    if ReverseProviderName(Some(id)) == slug && slug != "null" {
      ListedIdHasSlug(id);
    }
  }

  lemma ReverseOfListedSlug(slug: string, id: int)
    requires ProviderKey(slug) == Some(id)
    ensures ReverseProviderName(Some(id)) == slug
  {
    ProviderKeysDistinct();
    var k := FindKey(slug);
    ReverseMapInverts(ProviderKeys, k);
  }

  lemma ListedIdHasSlug(id: int)
    requires ReverseProviderName(Some(id)) != "null"
    ensures ProviderKey(ReverseProviderName(Some(id))) == Some(id)
  {
    ProviderKeysDistinct();
    var m := ReverseMap(ProviderKeys);
    assert id in m;
    var i :| 0 <= i < |ProviderKeys| && ProviderKeys[i].1 == id;
    ReverseMapInverts(ProviderKeys, i);
  }

  /** The table position of a slug the table knows. */
  lemma FindKey(slug: string) returns (k: nat)
    requires ProviderKey(slug).Some?
    ensures k < |ProviderKeys| && ProviderKeys[k].0 == slug && ProviderKey(slug) == Some(ProviderKeys[k].1)
  {
    k :| 0 <= k < |ProviderKeys| && ProviderKeys[k].0 == slug;
  }

  /** An id the table does not hold names no provider. */
  lemma UnknownIdExample()
    ensures ReverseProviderName(Some(9)) == "null"
  {
    assert forall i :: 0 <= i < |ProviderKeys| ==> ProviderKeys[i].1 != 9;
  }

  lemma KnownIdExample()
    ensures ReverseProviderName(Some(119)) == "amazonprimevideo"
  {
    assert ProviderKeys[1] == ("amazonprimevideo", 119);
    ReverseOfListedSlug("amazonprimevideo", 119);
  }

  /** The first listed provider, `watchProviders[0]`, or nothing for an empty list. */
  function FirstProvider(ids: seq<int>): (r: Option<int>)
    ensures r.Some? <==> ids != []
    ensures r.Some? ==> r.value == ids[0]
  {
    if ids == [] then None else Some(ids[0])
  }

  /** The provider part of the query: "" without a provider list, else the reverse lookup of its first id. */
  function ProviderPart(show: Show): (r: string)
    ensures show.watchProviders.None? ==> r == ""
    ensures show.watchProviders == Some([]) ==> r == "null"
    ensures show.watchProviders.Some? && show.watchProviders.value != [] ==>
              r == ReverseProviderName(Some(show.watchProviders.value[0]))
  {
    match show.watchProviders
    case None => ""
    case Some(ids) => ReverseProviderName(FirstProvider(ids))
  }

  /**
   * For a non-empty provider list, the provider part is the slug whose key is
   * the first id when the table lists that id, and "null" when it does not.
   */
  lemma ProviderPartMeaning(show: Show)
    ensures show.watchProviders.Some? && show.watchProviders.value != []
            && (exists i :: 0 <= i < |ProviderKeys| && ProviderKeys[i].1 == show.watchProviders.value[0]) ==>
              ProviderKey(ProviderPart(show)) == Some(show.watchProviders.value[0])
    ensures show.watchProviders.Some? && show.watchProviders.value != []
            && (forall i :: 0 <= i < |ProviderKeys| ==> ProviderKeys[i].1 != show.watchProviders.value[0]) ==>
              ProviderPart(show) == "null"
  {
    if show.watchProviders.Some? && show.watchProviders.value != [] {
      var id := show.watchProviders.value[0];
      if i :| 0 <= i < |ProviderKeys| && ProviderKeys[i].1 == id {
        ProviderKeysDistinct();
        ReverseMapInverts(ProviderKeys, i);
      }
    }
  }

  datatype SearchAction = OpenHomepage(url: string) | WebSearch(query: string)

  /** The search button: open the homepage when there is one, or search the web. */
  function SearchClick(show: Show): (r: SearchAction)
    ensures r.OpenHomepage? <==> Truthy(show.homepage)
    ensures r.OpenHomepage? ==> r.url == show.homepage.value
    ensures r.WebSearch? ==> r.query == show.title + " " + ProviderPart(show) + " " + show.releaseDate
  {
    if Truthy(show.homepage) then OpenHomepage(show.homepage.value)
    else WebSearch(show.title + " " + ProviderPart(show) + " " + show.releaseDate)
  }

  /** The search button is shown when there is a homepage or any provider list, even an empty one. */
  predicate ShowsSearchButton(show: Show): (r: bool)
    ensures show.watchProviders == Some([]) ==> r
    ensures !r <==> !Truthy(show.homepage) && show.watchProviders.None?
  {
    Truthy(show.homepage) || show.watchProviders.Some?
  }

  /** A shown button without a homepage always searches, and the query names a provider or says "null". */
  lemma SearchButtonAction(show: Show)
    ensures ShowsSearchButton(show) && !Truthy(show.homepage) ==>
              SearchClick(show).WebSearch? && ProviderPart(show) != ""
  {
    if show.watchProviders.Some? && show.watchProviders.value != [] {
      var id := show.watchProviders.value[0];
      ProviderPartMeaning(show);
      if exists i :: 0 <= i < |ProviderKeys| && ProviderKeys[i].1 == id {
        var k := FindKey(ProviderPart(show));
        SlugsNonEmpty(k);
      }
    }
  }

  lemma SlugsNonEmpty(k: nat)
    requires k < |ProviderKeys|
    ensures ProviderKeys[k].0 != ""
  {
  }

  function TypeLabel(t: ShowType): (r: string)
    ensures r == "Movie" <==> t.Movie?
    ensures r == "TV" <==> t.Tv?
  {
    if t.Movie? then "Movie" else "TV"
  }
}
