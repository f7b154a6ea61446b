/**
 * The home-page hero banner (app/components/DynamicBanner.tsx): up to five
 * featured shows drawn from every provider's shows that have a poster, a
 * timer step that cycles the index, and the guards that render nothing.
 */
module Banner {
  import opened Wrappers
  import opened Api

  /** A show tagged with the name of the provider it was listed under. */
  datatype FeaturedShow = FeaturedShow(show: Show, providerName: string)

  const MaxFeatured: nat := 5

  /** One provider's shows with a poster, tagged with its name. */
  function TagShows(shows: seq<Show>, providerName: string): (r: seq<FeaturedShow>)
    ensures forall x :: x in r <==> x.providerName == providerName && x.show in shows && Truthy(x.show.posterUrl)
  {
    if shows == [] then []
    else
      (if Truthy(shows[0].posterUrl) then [FeaturedShow(shows[0], providerName)] else [])
      + TagShows(shows[1..], providerName)
  }

  /** Every provider's shows with a poster, tagged, providers in order. */
  function Eligible(providers: seq<Provider>): (r: seq<FeaturedShow>)
    ensures forall x :: x in r ==> Truthy(x.show.posterUrl)
    ensures forall x :: x in r ==> exists i :: 0 <= i < |providers| && x.show in providers[i].shows
                                              && x.providerName == providers[i].providerName
  {
    if providers == [] then []
    else TagShows(providers[0].shows, providers[0].providerName) + Eligible(providers[1..])
  }

  /** No show with a poster is left out. */
  lemma {:induction false} EligibleComplete(providers: seq<Provider>, i: nat, s: Show)
    requires i < |providers| && s in providers[i].shows && Truthy(s.posterUrl)
    ensures FeaturedShow(s, providers[i].providerName) in Eligible(providers)
  {
    if i > 0 {
      EligibleComplete(providers[1..], i - 1, s);
    }
  }

  /** The first five of a shuffled copy of the eligible shows. */
  function SelectFeatured(shuffled: seq<FeaturedShow>): (r: seq<FeaturedShow>)
    ensures |r| == if |shuffled| < MaxFeatured then |shuffled| else MaxFeatured
    ensures multiset(r) <= multiset(shuffled)
  {
    var n := if |shuffled| < MaxFeatured then |shuffled| else MaxFeatured;
    assert shuffled == shuffled[..n] + shuffled[n..];
    shuffled[..n]
  }

  /**
   * Whatever order the shuffle produced, the featured shows are at most five
   * distinct entries of the eligible list, as many as it has up to five.
   */
  lemma FeaturedFromEligible(providers: seq<Provider>, shuffled: seq<FeaturedShow>)
    requires multiset(shuffled) == multiset(Eligible(providers))
    ensures |SelectFeatured(shuffled)| == if |Eligible(providers)| < MaxFeatured then |Eligible(providers)| else MaxFeatured
    ensures multiset(SelectFeatured(shuffled)) <= multiset(Eligible(providers))
    ensures forall x :: x in SelectFeatured(shuffled) ==> Truthy(x.show.posterUrl)
  {
    assert |shuffled| == |multiset(shuffled)| == |Eligible(providers)|;
    forall x | x in SelectFeatured(shuffled) ensures Truthy(x.show.posterUrl) {
      assert x in multiset(SelectFeatured(shuffled));
      assert x in multiset(Eligible(providers));
    }
  }

  /** The banner's state cells. */
  class HeroBanner {
    var featuredShows: seq<FeaturedShow>
    var currentIndex: nat

    constructor ()
      ensures featuredShows == [] && currentIndex == 0
    {
      featuredShows := [];
      currentIndex := 0;
    }

    /** New provider lists replace the featured shows; the index is not reset. */
    method OnShowsChanged(providers: seq<Provider>, shuffled: seq<FeaturedShow>)
      requires multiset(shuffled) == multiset(Eligible(providers))
      modifies this
      ensures featuredShows == SelectFeatured(shuffled) && currentIndex == old(currentIndex)
    {
      featuredShows := SelectFeatured(shuffled);
    }

    /** One timer tick; the timer runs only while there are featured shows. */
    method Tick()
      modifies this
      ensures featuredShows == old(featuredShows)
      ensures |featuredShows| == 0 ==> currentIndex == old(currentIndex)
      ensures |featuredShows| > 0 ==> currentIndex == (old(currentIndex) + 1) % |featuredShows|
      ensures |featuredShows| > 0 ==> currentIndex < |featuredShows|
    {
      if |featuredShows| > 0 {
        currentIndex := (currentIndex + 1) % |featuredShows|;
      }
    }

    /** The show the banner renders, if any: none for an empty list or an index past its end. */
    function CurrentShow(): (r: Option<FeaturedShow>)
      reads this
      ensures r.Some? <==> currentIndex < |featuredShows|
      ensures r.Some? ==> r.value == featuredShows[currentIndex]
    {
      if |featuredShows| == 0 then None
      else if currentIndex < |featuredShows| then Some(featuredShows[currentIndex])
      else None
    }
  }

  /** A shorter list after an update leaves an index past its end, and the banner renders nothing. */
  method ShrinkHidesBanner(b: HeroBanner, providers: seq<Provider>, shuffled: seq<FeaturedShow>)
    requires multiset(shuffled) == multiset(Eligible(providers))
    requires b.currentIndex >= |SelectFeatured(shuffled)|
    modifies b
    ensures b.CurrentShow().None?
  {
    b.OnShowsChanged(providers, shuffled);
  }
}
