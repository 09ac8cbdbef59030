/** fetchMedia's gathering of media: the valid subscriptions, up to five listing pages per feed
    chained by the `after` cursor, the per-post classification, and the in-place shuffle. */
module Aggregation {
  import opened Common
  import opened Text
  import opened Classifier
  import Subscriptions

  /** Page size asked of every new.json request. */
  const PageLimit := "100"
  /** At most this many pages are requested per subreddit. */
  const MaxPages: nat := 5

  /** The part of a new.json answer the loop reads: the posts (`children[].data`) and `after`. */
  datatype Page = Page(posts: seq<Post>, after: Option<string>)

  /** The subreddit listing as seen from the app: the page answered for a request URL. */
  type Listing = string -> Page

  /** The request URL for one page: `&after=` is added only for a truthy cursor. */
  function PageUrl(subreddit: string, after: Option<string>): (url: string)
    ensures Present(after) ==> url == "https://www.reddit.com/r/" + subreddit + "/new.json?limit=" + PageLimit
                                      + "&after=" + after.value
    ensures !Present(after) ==> url == "https://www.reddit.com/r/" + subreddit + "/new.json?limit=" + PageLimit
  {
    "https://www.reddit.com/r/" + subreddit + "/new.json?limit=" + PageLimit
      + (if Present(after) then "&after=" + after.value else "")
  }

  /** The pages a feed yields with `budget` requests left, starting from cursor `after`: a page is
      always fetched, and the chain goes on only while the page's `after` is truthy. */
  function FeedPages(listing: Listing, subreddit: string, after: Option<string>, budget: nat): seq<Page>
    decreases budget
  {
    if budget == 0 then []
    else
      var page := listing(PageUrl(subreddit, after));
      [page] + (if Present(page.after) then FeedPages(listing, subreddit, page.after, budget - 1) else [])
  }

  /** All posts of a list of pages, in page order. */
  function Flatten(pages: seq<Page>): (posts: seq<Post>)
    ensures pages == [] ==> posts == []
  {
    if pages == [] then [] else Flatten(pages[..|pages| - 1]) + pages[|pages| - 1].posts
  }

  lemma {:induction false} FlattenAppend(a: seq<Page>, b: seq<Page>)
    ensures Flatten(a + b) == Flatten(a) + Flatten(b)
    decreases |b|
  {
    if b == [] {
      assert a + b == a;
    } else {
      var b' := b[..|b| - 1];
      assert (a + b)[..|a + b| - 1] == a + b';
      assert (a + b)[|a + b| - 1] == b[|b| - 1];
      FlattenAppend(a, b');
    }
  }

  /** A feed never yields more pages than the budget, and at least one when there is budget. */
  lemma {:induction false} FeedPagesBounds(listing: Listing, subreddit: string, after: Option<string>, budget: nat)
    ensures |FeedPages(listing, subreddit, after, budget)| <= budget
    ensures budget > 0 ==> |FeedPages(listing, subreddit, after, budget)| >= 1
    decreases budget
  {
    if budget > 0 {
      var page := listing(PageUrl(subreddit, after));
      if Present(page.after) {
        FeedPagesBounds(listing, subreddit, page.after, budget - 1);
      }
    }
  }

  /** Each page but the last carried a truthy cursor, and the next page is the one asked for with it. */
  predicate Chained(listing: Listing, subreddit: string, pages: seq<Page>) {
    forall k :: 0 <= k < |pages| - 1 ==>
      Present(pages[k].after) && pages[k + 1] == listing(PageUrl(subreddit, pages[k].after))
  }

  /** The cursor chain: the first page is the one asked for with `after`; each later page is the
      one asked for with the previous page's cursor, which was truthy; and a page short of the
      budget is the last one exactly because its cursor is falsy. */
  lemma {:induction false} FeedPagesChain(listing: Listing, subreddit: string, after: Option<string>, budget: nat)
    requires budget > 0
    ensures var pages := FeedPages(listing, subreddit, after, budget);
      && |pages| >= 1
      && pages[0] == listing(PageUrl(subreddit, after))
      && Chained(listing, subreddit, pages)
      && (|pages| < budget ==> !Present(pages[|pages| - 1].after))
    decreases budget
  {
    var pages := FeedPages(listing, subreddit, after, budget);
    var page := listing(PageUrl(subreddit, after));
    if Present(page.after) && budget > 1 {
      var rest := FeedPages(listing, subreddit, page.after, budget - 1);
      FeedPagesChain(listing, subreddit, page.after, budget - 1);
      assert pages == [page] + rest;
      forall k | 0 <= k < |pages| - 1
        ensures Present(pages[k].after) && pages[k + 1] == listing(PageUrl(subreddit, pages[k].after))
      {
        if k > 0 {
          assert pages[k] == rest[k - 1] && pages[k + 1] == rest[k];
        }
      }
    } else if Present(page.after) {
      assert FeedPages(listing, subreddit, page.after, 0) == [];
      assert pages == [page];
    } else {
      assert pages == [page];
    }
  }

  /** When every answer carries a truthy cursor, the full five pages are requested. */
  lemma {:induction false} FullPagination(listing: Listing, subreddit: string, after: Option<string>, budget: nat)
    requires forall url :: Present(listing(url).after)
    ensures |FeedPages(listing, subreddit, after, budget)| == budget
    decreases budget
  {
    if budget > 0 {
      var page := listing(PageUrl(subreddit, after));
      FullPagination(listing, subreddit, page.after, budget - 1);
    }
  }

  /** One request of the loop: the page asked for with the cursor joins the pages already
      fetched, and what remains is the chain from that page's cursor, if it is truthy. */
  lemma FeedStep(listing: Listing, subreddit: string, done: seq<Page>, after: Option<string>, budget: nat)
    requires budget > 0
    ensures var page := listing(PageUrl(subreddit, after));
      done + FeedPages(listing, subreddit, after, budget)
        == (done + [page]) + (if Present(page.after) then FeedPages(listing, subreddit, page.after, budget - 1) else [])
  {
  }

  /** The pagination loop of one subreddit: up to five requests, each page's posts appended, the
      cursor taken from the page, and a stop right after a page whose cursor is falsy. */
  method FetchFeed(listing: Listing, subreddit: string) returns (allPosts: seq<Post>)
    ensures allPosts == Flatten(FeedPages(listing, subreddit, None, MaxPages))
  {
    allPosts := [];
    var after: Option<string> := None;
    ghost var done: seq<Page> := [];
    for i := 0 to MaxPages
      invariant FeedPages(listing, subreddit, None, MaxPages) == done + FeedPages(listing, subreddit, after, MaxPages - i)
      invariant allPosts == Flatten(done)
    {
      var url := PageUrl(subreddit, after);
      var page := listing(url);
      FeedStep(listing, subreddit, done, after, MaxPages - i);
      FlattenAppend(done, [page]);
      allPosts := allPosts + page.posts;
      done := done + [page];
      after := page.after;
      if !Present(after) {
        assert done + [] == done;
        return;
      }
    }
    assert done + [] == done;
  }

  /** `subredditList.filter(s => s.valid).map(s => s.name)`. */
  function ValidNames(subs: seq<Subscriptions.Subscription>): (names: seq<string>)
    ensures |names| <= |subs|
  {
    if subs == [] then []
    else
      var last := subs[|subs| - 1];
      ValidNames(subs[..|subs| - 1]) + (if last.valid then [last.name] else [])
  }

  /** Every fetched name is the name of a valid subscription. */
  lemma {:induction false} ValidNamesAreValid(subs: seq<Subscriptions.Subscription>)
    ensures forall n :: n in ValidNames(subs) ==> exists i :: 0 <= i < |subs| && subs[i].valid && subs[i].name == n
  {
    if subs != [] {
      var init := subs[..|subs| - 1];
      ValidNamesAreValid(init);
      forall n | n in ValidNames(subs)
        ensures exists i :: 0 <= i < |subs| && subs[i].valid && subs[i].name == n
      {
        if n in ValidNames(init) {
          var i :| 0 <= i < |init| && init[i].valid && init[i].name == n;
          assert subs[i] == init[i];
        } else {
          assert subs[|subs| - 1].valid && subs[|subs| - 1].name == n;
        }
      }
    }
  }

  /** Every valid subscription is fetched. */
  lemma {:induction false} ValidNamesComplete(subs: seq<Subscriptions.Subscription>)
    ensures forall i :: 0 <= i < |subs| && subs[i].valid ==> subs[i].name in ValidNames(subs)
  {
    if subs != [] {
      var init := subs[..|subs| - 1];
      ValidNamesComplete(init);
      forall i | 0 <= i < |subs| && subs[i].valid ensures subs[i].name in ValidNames(subs) {
        if i < |subs| - 1 {
          assert subs[i] == init[i];
        }
      }
    }
  }

  /** The filter keeps list order: names of a concatenation are the names of the parts. */
  lemma {:induction false} ValidNamesAppend(a: seq<Subscriptions.Subscription>, b: seq<Subscriptions.Subscription>)
    ensures ValidNames(a + b) == ValidNames(a) + ValidNames(b)
    decreases |b|
  {
    if b == [] {
      assert a + b == a;
    } else {
      var b' := b[..|b| - 1];
      assert (a + b)[..|a + b| - 1] == a + b';
      assert (a + b)[|a + b| - 1] == b[|b| - 1];
      ValidNamesAppend(a, b');
    }
  }

  /** Invalid subscriptions are not fetched at all. */
  lemma {:induction false} NoValidNoNames(subs: seq<Subscriptions.Subscription>)
    requires forall i :: 0 <= i < |subs| ==> !subs[i].valid
    ensures ValidNames(subs) == []
  {
    if subs != [] {
      NoValidNoNames(subs[..|subs| - 1]);
    }
  }

  /** What a sequence of posts adds to the media list, post by post. */
  function PostsMedia(posts: seq<Post>, flags: Flags, token: Option<string>, lookup: RedgifsLookup)
    : seq<MediaRef>
  {
    if posts == [] then []
    else PostsMedia(posts[..|posts| - 1], flags, token, lookup) + PostMedia(posts[|posts| - 1], flags, token, lookup)
  }

  /** The posts of one feed: its pages requested and flattened. */
  function FeedPosts(listing: Listing, subreddit: string): seq<Post> {
    Flatten(FeedPages(listing, subreddit, None, MaxPages))
  }

  /** What the subscriptions named add to the media list, feed by feed, before the shuffle. */
  function FeedsMedia(names: seq<string>, listing: Listing, flags: Flags, token: Option<string>,
                      lookup: RedgifsLookup): seq<MediaRef>
  {
    if names == [] then []
    else
      FeedsMedia(names[..|names| - 1], listing, flags, token, lookup)
        + PostsMedia(FeedPosts(listing, names[|names| - 1]), flags, token, lookup)
  }

  /** The media list before the shuffle, for the subscriptions as listed. */
  function AllMedia(subs: seq<Subscriptions.Subscription>, listing: Listing, flags: Flags, token: Option<string>,
                    lookup: RedgifsLookup): seq<MediaRef>
  {
    FeedsMedia(ValidNames(subs), listing, flags, token, lookup)
  }

  /** Each post adds at most one reference besides its gallery references. */
  lemma {:induction false} PostsMediaBound(posts: seq<Post>, flags: Flags, token: Option<string>, lookup: RedgifsLookup)
    requires !flags.showImages
    ensures |PostsMedia(posts, flags, token, lookup)| <= |posts|
  {
    if posts != [] {
      PostsMediaBound(posts[..|posts| - 1], flags, token, lookup);
    }
  }

  /** With every toggle off the list stays empty, whatever the feeds hold. */
  lemma {:induction false} AllTogglesOffNoMedia(names: seq<string>, listing: Listing, flags: Flags,
                                                 token: Option<string>, lookup: RedgifsLookup)
    requires !flags.showImages && !flags.showGIFs && !flags.showVideos
    ensures FeedsMedia(names, listing, flags, token, lookup) == []
  {
    if names != [] {
      AllTogglesOffNoMedia(names[..|names| - 1], listing, flags, token, lookup);
      PostsNoMedia(FeedPosts(listing, names[|names| - 1]), flags, token, lookup);
    }
  }

  lemma {:induction false} PostsNoMedia(posts: seq<Post>, flags: Flags, token: Option<string>, lookup: RedgifsLookup)
    requires !flags.showImages && !flags.showGIFs && !flags.showVideos
    ensures PostsMedia(posts, flags, token, lookup) == []
  {
    if posts != [] {
      PostsNoMedia(posts[..|posts| - 1], flags, token, lookup);
      AllTogglesOffNothing(posts[|posts| - 1], flags, token, lookup);
    }
  }

  /** The gallery loop over `media_metadata`, pushing each usable entry's unescaped source URL. */
  method PushGallery(media: seq<MediaRef>, items: seq<GalleryItem>) returns (r: seq<MediaRef>)
    ensures r == media + GalleryItemRefs(items)
  {
    r := media;
    for g := 0 to |items|
      invariant r == media + GalleryItemRefs(items[..g])
    {
      var item := items[g];
      assert items[..g + 1] == items[..g] + [item];
      GalleryItemRefsAppend(items[..g], [item]);
      assert GalleryItemRefs([item]) == GalleryItemRefs([]) + (if Usable(item) then [MediaRef(UnescapeAmp(item.sourceUrl.value), Image)] else []);
      if item.status == Some("valid") && Present(item.sourceUrl) {
        var url := UnescapeAmp(item.sourceUrl.value);
        r := r + [MediaRef(url, Image)];
      }
    }
    assert items[..|items|] == items;
  }

  /** The body of the per-post loop: classify, push the gallery entries, then the single one. */
  method PushPost(media: seq<MediaRef>, post: Post, flags: Flags, token: Option<string>, lookup: RedgifsLookup)
    returns (r: seq<MediaRef>)
    ensures r == media + PostMedia(post, flags, token, lookup)
  {
    var single := ClassifyPost(post, flags, token, lookup);
    r := media;
    if flags.showImages && post.isGallery && |post.mediaMetadata| > 0 {
      r := PushGallery(r, post.mediaMetadata);
    }
    if single.Some? {
      r := r + [single.value];
    }
  }

  /** One round of the per-post loop extends the media pushed for the posts before it. */
  lemma PostsMediaStep(media: seq<MediaRef>, posts: seq<Post>, k: nat, flags: Flags, token: Option<string>,
                       lookup: RedgifsLookup, before: seq<MediaRef>, after: seq<MediaRef>)
    requires k < |posts|
    requires before == media + PostsMedia(posts[..k], flags, token, lookup)
    requires after == before + PostMedia(posts[k], flags, token, lookup)
    ensures after == media + PostsMedia(posts[..k + 1], flags, token, lookup)
  {
    assert posts[..k + 1][..k] == posts[..k];
  }

  lemma FeedsMediaStep(names: seq<string>, n: nat, listing: Listing, flags: Flags, token: Option<string>,
                       lookup: RedgifsLookup)
    requires n < |names|
    ensures FeedsMedia(names[..n + 1], listing, flags, token, lookup)
            == FeedsMedia(names[..n], listing, flags, token, lookup) + PostsMedia(FeedPosts(listing, names[n]), flags, token, lookup)
  {
    assert names[..n + 1][..n] == names[..n];
  }

  /** The per-post loop over one feed's posts. */
  method PushPosts(media: seq<MediaRef>, allPosts: seq<Post>, flags: Flags, token: Option<string>,
                   lookup: RedgifsLookup)
    returns (r: seq<MediaRef>)
    ensures r == media + PostsMedia(allPosts, flags, token, lookup)
  {
    r := media;
    for k := 0 to |allPosts|
      invariant r == media + PostsMedia(allPosts[..k], flags, token, lookup)
    {
      ghost var before := r;
      r := PushPost(r, allPosts[k], flags, token, lookup);
      PostsMediaStep(media, allPosts, k, flags, token, lookup, before, r);
    }
    assert allPosts[..|allPosts|] == allPosts;
  }

  /** The outer loop of fetchMedia: feed by feed, in list order, pushing onto `media`. */
  method Collect(subs: seq<Subscriptions.Subscription>, listing: Listing, flags: Flags, token: Option<string>,
                 lookup: RedgifsLookup)
    returns (media: seq<MediaRef>)
    ensures media == AllMedia(subs, listing, flags, token, lookup)
  {
    var subredditNames := ValidNames(subs);
    media := [];
    for n := 0 to |subredditNames|
      invariant media == FeedsMedia(subredditNames[..n], listing, flags, token, lookup)
    {
      FeedsMediaStep(subredditNames, n, listing, flags, token, lookup);
      var allPosts := FetchFeed(listing, subredditNames[n]);
      media := PushPosts(media, allPosts, flags, token, lookup);
    }
    assert subredditNames[..|subredditNames|] == subredditNames;
  }

  /** Exchanging two positions of a sequence. */
  function Swap(s: seq<MediaRef>, i: nat, j: nat): (r: seq<MediaRef>)
    requires i < |s| && j < |s|
    ensures |r| == |s| && r[i] == s[j] && r[j] == s[i]
    ensures forall k :: 0 <= k < |s| && k != i && k != j ==> r[k] == s[k]
  {
    s[i := s[j]][j := s[i]]
  }

  /** A swap keeps every element and its number of occurrences. */
  lemma SwapPermutes(s: seq<MediaRef>, i: nat, j: nat)
    requires i < |s| && j < |s|
    ensures multiset(Swap(s, i, j)) == multiset(s)
  {
    var t := s[i := s[j]];
    assert multiset(t) == multiset(s) - multiset{s[i]} + multiset{s[j]};
  }

  /** The Fisher–Yates loop: from the last index down to 1, swap with any index up to it. */
  method Shuffle(a: array<MediaRef>)
    modifies a
    ensures multiset(a[..]) == multiset(old(a[..]))
  {
    var i := a.Length - 1;
    while i > 0
      invariant -1 <= i < a.Length
      invariant multiset(a[..]) == multiset(old(a[..]))
    {
      var j :| 0 <= j <= i;
      ghost var before := a[..];
      a[i], a[j] := a[j], a[i];
      assert a[..] == Swap(before, i, j);
      SwapPermutes(before, i, j);
      i := i - 1;
    }
  }
}
