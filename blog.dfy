/** The blog index page (app/blog/page.tsx): the loaded posts and the search over them. */
module Blog {
  import opened Wrappers
  import opened Seqs
  import Text
  import opened Api

  /** A post matches when its lower-cased title or lower-cased category holds the lower-cased term. */
  predicate MatchesLowered(post: BlogPost, loweredTerm: string)
  {
    Text.Includes(Text.Lower(post.title), loweredTerm)
    || Text.Includes(Text.Lower(post.category), loweredTerm)
  }

  predicate Matches(post: BlogPost, term: string)
  {
    MatchesLowered(post, Text.Lower(term))
  }

  function FilterLowered(posts: seq<BlogPost>, loweredTerm: string): seq<BlogPost>
  {
    Filter(posts, (p: BlogPost) => MatchesLowered(p, loweredTerm))
  }

  /** `filteredPosts`: the posts that match, in the order they were loaded. */
  function FilterPosts(posts: seq<BlogPost>, term: string): (r: seq<BlogPost>)
    ensures forall p :: p in r <==> p in posts && Matches(p, term)
    ensures |r| <= |posts|
  {
    FilterLowered(posts, Text.Lower(term))
  }

  /** The result keeps the posts' order; an empty term keeps every post. */
  lemma FilterPostsKeepsOrder(posts: seq<BlogPost>, term: string)
    ensures IsSubsequence(FilterPosts(posts, term), posts)
    ensures term == [] ==> FilterPosts(posts, term) == posts
  {
    var keep := (p: BlogPost) => MatchesLowered(p, Text.Lower(term));
    FilterIsSubsequence(posts, keep);
    if term == [] {
      forall p | p in posts ensures keep(p) {
        Text.IncludesEmpty(Text.Lower(p.title));
      }
      FilterAll(posts, keep);
    }
  }

  /** Typing the term in upper or lower case gives the same posts. */
  lemma FilterPostsIgnoresCase(posts: seq<BlogPost>, term: string)
    ensures FilterPosts(posts, Text.Upper(term)) == FilterPosts(posts, term)
    ensures FilterPosts(posts, Text.Lower(term)) == FilterPosts(posts, term)
  {
    Text.LowerIdempotent(term);
  }

  /** The page's state: the loaded posts and the search box. */
  class BlogPage {
    var posts: seq<BlogPost>
    var searchTerm: string

    constructor ()
      ensures posts == [] && searchTerm == []
    {
      posts := [];
      searchTerm := [];
    }

    /** The posts on screen. */
    function Shown(): (r: seq<BlogPost>)
      reads this
      ensures forall p :: p in r <==> p in posts && Matches(p, searchTerm)
    {
      FilterPosts(posts, searchTerm)
    }

    /** The mount effect: the posts become what the call yields, and a failed call yields none. */
    method LoadPosts(reply: Result<seq<BlogPost>, ApiError>)
      modifies this
      ensures reply.Success? ==> posts == reply.value
      ensures reply.Failure? ==> posts == []
      ensures searchTerm == old(searchTerm)
    {
      posts := FetchAllBlogs(reply);
    }

    method SetSearchTerm(term: string)
      modifies this
      ensures searchTerm == term && posts == old(posts)
    {
      searchTerm := term;
    }
  }
}
