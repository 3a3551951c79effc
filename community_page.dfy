/**
 * The community page: the tab-to-post-type map, the search on title and description,
 * and the like button of a post card.
 */
module CommunityPage {

  import opened Text
  import opened Seqs

  datatype Post = Post(id: int, postType: string, title: string, description: string,
                       author: string, date: string, likes: int, comments: int, shares: int)

  /** The tab ids other than "all" and the post type each one shows. */
  const CategoryMap: map<string, string> := map[
    "events" := "event",
    "exchanges" := "exchange",
    "tips" := "tip",
    "discussions" := "discussion"]

  /** Outside "all", a post is kept when its type is the one mapped from the tab; an unmapped tab keeps none. */
  predicate InCategory(activeCategory: string, post: Post)
  {
    activeCategory != "all" ==> activeCategory in CategoryMap && post.postType == CategoryMap[activeCategory]
  }

  /** A non-empty query matches the lowercased title or the lowercased description. */
  predicate Matches(searchQuery: string, post: Post)
  {
    searchQuery != [] ==>
      Contains(Lower(post.title), Lower(searchQuery)) || Contains(Lower(post.description), Lower(searchQuery))
  }

  predicate Shown(activeCategory: string, searchQuery: string, post: Post)
  {
    InCategory(activeCategory, post) && Matches(searchQuery, post)
  }

  /** The posts on screen: those passing both tests, in feed order. */
  function VisiblePosts(posts: seq<Post>, activeCategory: string, searchQuery: string): (r: seq<Post>)
    ensures IsSubsequence(r, posts)
    ensures forall i :: 0 <= i < |r| ==> InCategory(activeCategory, r[i]) && Matches(searchQuery, r[i])
    ensures forall i :: 0 <= i < |posts| && InCategory(activeCategory, posts[i]) && Matches(searchQuery, posts[i])
              ==> posts[i] in r
    ensures forall i :: 0 <= i < |posts| ==>
              multiset(r)[posts[i]] == if Shown(activeCategory, searchQuery, posts[i]) then multiset(posts)[posts[i]] else 0
  {
    Filter(posts, post => Shown(activeCategory, searchQuery, post))
  }

  /** The filter effect on `let posts`: the mapped type first, then the search. */
  method FilterEffect(posts: seq<Post>, activeCategory: string, searchQuery: string)
    returns (items: seq<Post>)
    ensures items == VisiblePosts(posts, activeCategory, searchQuery)
  {
    var byType := (post: Post) => activeCategory in CategoryMap && post.postType == CategoryMap[activeCategory];
    var bySearch := (post: Post) =>
      Contains(Lower(post.title), Lower(searchQuery)) || Contains(Lower(post.description), Lower(searchQuery));
    items := posts;
    if activeCategory != "all" {
      items := Filter(items, byType);
    }
    if searchQuery != [] {
      items := Filter(items, bySearch);
    }
    StagedFilter(posts, activeCategory != "all", byType, searchQuery != [], bySearch,
                 post => Shown(activeCategory, searchQuery, post));
  }

  /** A tab id missing from the map shows no post at all. */
  lemma UnmappedTabIsEmpty(posts: seq<Post>, activeCategory: string, searchQuery: string)
    requires activeCategory != "all" && activeCategory !in CategoryMap
    ensures VisiblePosts(posts, activeCategory, searchQuery) == []
  {
  }

  /** "all" with an empty query shows the whole feed. */
  lemma AllTabShowsEverything(posts: seq<Post>)
    ensures VisiblePosts(posts, "all", "") == posts
  {
    FilterKeepsAll(posts, post => Shown("all", "", post));
  }

  /** On the events tab every post shown is an event. */
  lemma EventsTabShowsEvents(posts: seq<Post>, searchQuery: string)
    ensures forall i :: 0 <= i < |VisiblePosts(posts, "events", searchQuery)| ==>
              VisiblePosts(posts, "events", searchQuery)[i].postType == "event"
  {
  }

  /** A post card with its like toggle. */
  class PostCard {
    const post: Post
    var liked: bool

    constructor(post: Post)
      ensures this.post == post && !liked
    {
      this.post := post;
      liked := false;
    }

    /** The count on the like button: one more than the stored likes while liked. */
    function DisplayedLikes(): (n: int)
      reads this
      ensures liked ==> n == post.likes + 1
      ensures !liked ==> n == post.likes
    {
      if liked then post.likes + 1 else post.likes
    }

    /** The like button: flips `liked`, so the count moves by exactly one. */
    method ToggleLike()
      modifies this
      ensures liked == !old(liked)
      ensures DisplayedLikes() - old(DisplayedLikes()) == (if liked then 1 else -1)
    {
      liked := !liked;
    }
  }
}
