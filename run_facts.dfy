/** What a whole run of `scrape_new_vr_titles` does, stated on the run
    specification `Scraper.Run`: which pages it fetches, which titles it
    records and notifies, and what the store holds afterwards. */
module RunFacts {
  import opened Options
  import opened Text
  import opened Ordering
  import opened Extract
  import opened Store
  import opened Scraper

  /** The number of pages the page loop fetches: every page of the feed, or
      the pages up to and including the first empty listing. */
  function FetchedPages(feed: seq<Page>): (n: nat)
    ensures n <= |feed|
    ensures forall i :: 0 <= i < n - 1 ==> !EndOfFeed(feed[i])
    ensures n < |feed| ==> 0 < n && EndOfFeed(feed[n - 1])
    ensures |feed| > 0 ==> n > 0
  {
    if feed == [] then 0
    else if EndOfFeed(feed[0]) then 1
    else
      var rest := FetchedPages(feed[1..]);
      assert forall i :: 1 <= i < rest ==> feed[i] == feed[1..][i - 1];
      1 + rest
  }

  /** The page numbers 1, 2, ..., k. */
  function PagesUpTo(k: nat): (pages: seq<nat>)
    ensures |pages| == k
    ensures forall i :: 0 <= i < k ==> pages[i] == i + 1
  {
    if k == 0 then [] else PagesUpTo(k - 1) + [k]
  }

  function ItemsOf(page: Page): seq<Item> {
    if page.Listing? then page.items else []
  }

  /** The entries of the listing pages, in feed order. */
  function ListedItems(pages: seq<Page>): seq<Item>
    decreases |pages|
  {
    if pages == [] then []
    else ListedItems(pages[..|pages| - 1]) + ItemsOf(pages[|pages| - 1])
  }

  /** The titles of the new entries, in order, repeats included. */
  function NewTitles(items: seq<Item>, loaded: set<string>): seq<string>
    decreases |items|
  {
    if items == [] then []
    else
      var last := items[|items| - 1];
      NewTitles(items[..|items| - 1], loaded) + (if IsNew(last, loaded) then [TitleOf(last.link.value)] else [])
  }

  /** The titles of the entries that have a link, in order. */
  function LinkedTitles(items: seq<Item>): seq<string>
    decreases |items|
  {
    if items == [] then []
    else
      var last := items[|items| - 1];
      LinkedTitles(items[..|items| - 1]) + (if last.link.Some? then [TitleOf(last.link.value)] else [])
  }

  lemma {:induction false} NewTitlesConcat(a: seq<Item>, b: seq<Item>, loaded: set<string>)
    ensures NewTitles(a + b, loaded) == NewTitles(a, loaded) + NewTitles(b, loaded)
    decreases |b|
  {
    if b == [] {
      assert a + b == a;
    } else {
      var b' := b[..|b| - 1];
      assert (a + b)[..|a + b| - 1] == a + b';
      NewTitlesConcat(a, b', loaded);
    }
  }

  lemma {:induction false} LinkedTitlesConcat(a: seq<Item>, b: seq<Item>)
    ensures LinkedTitles(a + b) == LinkedTitles(a) + LinkedTitles(b)
    decreases |b|
  {
    if b == [] {
      assert a + b == a;
    } else {
      var b' := b[..|b| - 1];
      assert (a + b)[..|a + b| - 1] == a + b';
      LinkedTitlesConcat(a, b');
    }
  }

  /** A title is recorded exactly for the new entries: an entry with a
      non-empty href whose title was not loaded at the start of the run. */
  lemma {:induction false} NewTitlesMembers(items: seq<Item>, loaded: set<string>, t: string)
    ensures t in NewTitles(items, loaded) <==>
      exists i :: 0 <= i < |items| && IsNew(items[i], loaded) && TitleOf(items[i].link.value) == t
    decreases |items|
  {
    if items != [] {
      var init := items[..|items| - 1];
      NewTitlesMembers(init, loaded, t);
      if exists i :: 0 <= i < |items| && IsNew(items[i], loaded) && TitleOf(items[i].link.value) == t {
        var i :| 0 <= i < |items| && IsNew(items[i], loaded) && TitleOf(items[i].link.value) == t;
        if i < |items| - 1 {
          assert init[i] == items[i];
        }
      }
      if t in NewTitles(init, loaded) {
        var i :| 0 <= i < |init| && IsNew(init[i], loaded) && TitleOf(init[i].link.value) == t;
        assert items[i] == init[i];
      }
    }
  }

  /** The item loop of one page: the titles it records are its new entries'
      titles, it translates every linked entry's title, fetches no listing
      page, and posts once per recorded title. */
  lemma {:induction false} PageEffectsSummary(items: seq<Item>, loaded: set<string>, env: Services)
    ensures var t := PageEffects(items, loaded, env);
      && t.recorded == NewTitles(items, loaded)
      && PageFetches(t.events) == []
      && Translations(t.events) == LinkedTitles(items)
      && PostCount(t.events) == |t.recorded|
    decreases |items|
  {
    if items != [] {
      var init := items[..|items| - 1];
      var last := items[|items| - 1];
      PageEffectsSummary(init, loaded, env);
      ItemEffectsCalls(last, loaded, env);
      EventsConcat(PageEffects(init, loaded, env).events, ItemEffects(last, loaded, env).events);
    }
  }

  /** One iteration of the page loop: it fetches page k, ends the loop
      exactly on an empty listing, and adds the item loop's effects. */
  lemma PageStepSummary(st: RunState, k: nat, page: Page, loaded: set<string>, env: Services)
    ensures var next := PageStep(st, k, page, loaded, env);
      && next.stopped == EndOfFeed(page)
      && next.recorded == st.recorded + NewTitles(ItemsOf(page), loaded)
      && PageFetches(next.events) == PageFetches(st.events) + [k]
      && Translations(next.events) == Translations(st.events) + LinkedTitles(ItemsOf(page))
      && PostCount(next.events) == PostCount(st.events) + |NewTitles(ItemsOf(page), loaded)|
  {
    var fetch := [FetchPage(k)];
    assert fetch[1..] == [];
    EventsConcat(st.events, fetch);
    PageEffectsSummary(ItemsOf(page), loaded, env);
    var t := PageEffects(ItemsOf(page), loaded, env);
    EventsConcat(st.events + fetch, t.events);
  }

  /** The page loop over the first k pages, while no earlier page ended it. */
  lemma {:induction false} RunUpToSummary(feed: seq<Page>, k: nat, loaded: set<string>, env: Services)
    requires k <= |feed|
    requires forall i :: 0 <= i < k - 1 ==> !EndOfFeed(feed[i])
    ensures var st := RunUpTo(feed, k, loaded, env);
      && st.stopped == (k > 0 && EndOfFeed(feed[k - 1]))
      && st.recorded == NewTitles(ListedItems(feed[..k]), loaded)
      && PageFetches(st.events) == PagesUpTo(k)
      && Translations(st.events) == LinkedTitles(ListedItems(feed[..k]))
      && PostCount(st.events) == |st.recorded|
    decreases k
  {
    if k > 0 {
      RunUpToSummary(feed, k - 1, loaded, env);
      var before := RunUpTo(feed, k - 1, loaded, env);
      var page := feed[k - 1];
      RunUpToNext(feed, k, loaded, env);
      PageStepSummary(before, k, page, loaded, env);
      ListedItemsNext(feed, k, loaded);
    }
  }

  /** The entries of the first k pages: those of the first k - 1 pages, then
      those of page k. */
  lemma ListedItemsNext(feed: seq<Page>, k: nat, loaded: set<string>)
    requires 0 < k <= |feed|
    ensures var prior := ListedItems(feed[..k - 1]);
      && NewTitles(ListedItems(feed[..k]), loaded) == NewTitles(prior, loaded) + NewTitles(ItemsOf(feed[k - 1]), loaded)
      && LinkedTitles(ListedItems(feed[..k])) == LinkedTitles(prior) + LinkedTitles(ItemsOf(feed[k - 1]))
  {
    assert feed[..k][..k - 1] == feed[..k - 1];
    var prior := ListedItems(feed[..k - 1]);
    assert ListedItems(feed[..k]) == prior + ItemsOf(feed[k - 1]);
    NewTitlesConcat(prior, ItemsOf(feed[k - 1]), loaded);
    LinkedTitlesConcat(prior, ItemsOf(feed[k - 1]));
  }

  /** The whole run: pages 1..n are fetched in order, n being FetchedPages;
      the recorded titles are the new entries of those pages, in order and
      with repeats; every linked entry's title is translated; and there is
      one post per recorded title. */
  lemma RunSummary(feed: seq<Page>, loaded: set<string>, env: Services)
    ensures var n := FetchedPages(feed);
      var r := Run(feed, loaded, env);
      && r.recorded == NewTitles(ListedItems(feed[..n]), loaded)
      && PageFetches(r.events) == PagesUpTo(n)
      && Translations(r.events) == LinkedTitles(ListedItems(feed[..n]))
      && PostCount(r.events) == |r.recorded|
  {
    var n := FetchedPages(feed);
    RunUpToSummary(feed, n, loaded, env);
    if n < |feed| {
      RunStopped(feed, n, |feed|, loaded, env);
    }
  }

  /** A page after the first empty listing is never fetched, and the pages
      that are fetched are fetched in order, each once. */
  lemma NoFetchAfterEnd(feed: seq<Page>, loaded: set<string>, env: Services, i: nat, p: nat)
    requires i < |feed| && EndOfFeed(feed[i])
    requires p in PageFetches(Run(feed, loaded, env).events)
    ensures 1 <= p <= i + 1
  {
    RunSummary(feed, loaded, env);
    var n := FetchedPages(feed);
    var pages := PageFetches(Run(feed, loaded, env).events);
    var k :| 0 <= k < |pages| && pages[k] == p;
    assert n <= i + 1;
  }

  /** Which titles are recorded depends on the feed and the loaded set only,
      not on the translator, the rating page, the detail page or whether a
      post succeeded. */
  lemma RecordedIgnoresServices(feed: seq<Page>, loaded: set<string>, env1: Services, env2: Services)
    ensures Run(feed, loaded, env1).recorded == Run(feed, loaded, env2).recorded
  {
    RunSummary(feed, loaded, env1);
    RunSummary(feed, loaded, env2);
  }

  /** A recorded title was not loaded, and has no surrounding white space. */
  lemma RecordedAreNew(feed: seq<Page>, loaded: set<string>, env: Services, t: string)
    requires t in Run(feed, loaded, env).recorded
    ensures t !in loaded && NoEdgeSpace(t)
  {
    RunRecorded(feed, loaded, env);
    var items := ListedItems(feed[..FetchedPages(feed)]);
    NewTitlesMembers(items, loaded, t);
    var i :| 0 <= i < |items| && IsNew(items[i], loaded) && TitleOf(items[i].link.value) == t;
    TitleTrimmed(items[i].link.value);
  }

  /** The titles a run records are the new entries' titles of the fetched pages. */
  lemma RunRecorded(feed: seq<Page>, loaded: set<string>, env: Services)
    ensures Run(feed, loaded, env).recorded == NewTitles(ListedItems(feed[..FetchedPages(feed)]), loaded)
  {
    RunSummary(feed, loaded, env);
  }

  /** An entry's title, stripped or the sentinel, has no surrounding white space. */
  lemma TitleTrimmed(link: Link)
    ensures NoEdgeSpace(TitleOf(link))
  {
    if link.titleText.None? {
      assert !IsSpace(NoTitle[0]) && !IsSpace(NoTitle[|NoTitle| - 1]);
    }
  }

  /** A second run over the same feed, starting from the loaded titles and
      the titles the first run recorded, records and posts nothing: no title
      is notified twice across runs. */
  lemma RunIdempotent(feed: seq<Page>, loaded: set<string>, env1: Services, env2: Services)
    ensures var first := Run(feed, loaded, env1).recorded;
      var second := Run(feed, loaded + Elems(first), env2);
      second.recorded == [] && PostCount(second.events) == 0
  {
    var first := Run(feed, loaded, env1).recorded;
    var after := loaded + Elems(first);
    RunSummary(feed, loaded, env1);
    RunSummary(feed, after, env2);
    var items := ListedItems(feed[..FetchedPages(feed)]);
    forall i | 0 <= i < |items| && IsCandidate(items[i])
      ensures TitleOf(items[i].link.value) in after
    {
      var t := TitleOf(items[i].link.value);
      if t !in loaded {
        NewTitlesMembers(items, loaded, t);
      }
    }
    NoNewTitles(items, after);
  }

  /** When every candidate's title is already loaded, nothing is new. */
  lemma {:induction false} NoNewTitles(items: seq<Item>, loaded: set<string>)
    requires forall i :: 0 <= i < |items| && IsCandidate(items[i]) ==> TitleOf(items[i].link.value) in loaded
    ensures NewTitles(items, loaded) == []
    decreases |items|
  {
    if items != [] {
      NoNewTitles(items[..|items| - 1], loaded);
    }
  }

  /** Across two runs through the store: when the titles the first run
      records hold no line break, a second run over the same feed from the
      file the first run saved records and posts nothing. */
  lemma SecondRunQuiet(store: Option<string>, feed: seq<Page>, env1: Services, env2: Services)
    requires forall t :: t in Run(feed, Load(store), env1).recorded ==> '\n' !in t && '\r' !in t
    ensures var first := Run(feed, Load(store), env1).recorded;
      var saved := Serialize(SortedOf(Load(store) + Elems(first)));
      && Load(Some(saved)) == Load(store) + Elems(first)
      && Run(feed, Load(Some(saved)), env2).recorded == []
      && PostCount(Run(feed, Load(Some(saved)), env2).events) == 0
  {
    var first := Run(feed, Load(store), env1).recorded;
    forall t | t in Elems(first)
      ensures Storable(t)
    {
      RecordedAreNew(feed, Load(store), env1, t);
    }
    StoreKeepsTitles(store, Elems(first));
    RunIdempotent(feed, Load(store), env1, env2);
  }

  lemma NewTitlesTwice(item: Item, loaded: set<string>)
    requires IsNew(item, loaded)
    ensures NewTitles([item, item], loaded) == [TitleOf(item.link.value), TitleOf(item.link.value)]
  {
    var t := TitleOf(item.link.value);
    assert [item][..0] == [];
    assert NewTitles([item], loaded) == [] + [t];
    assert [item, item][..1] == [item];
    assert NewTitles([item, item], loaded) == NewTitles([item], loaded) + [t];
  }

  lemma TwoListings(item: Item)
    ensures FetchedPages([Listing([item]), Listing([item])]) == 2
    ensures ListedItems([Listing([item]), Listing([item])][..2]) == [item, item]
  {
    var feed := [Listing([item]), Listing([item])];
    assert feed[1..] == [Listing([item])];
    assert feed[1..][1..] == [];
    assert FetchedPages(feed[1..]) == 1;
    assert feed[..2] == feed;
    assert feed[..1] == [Listing([item])];
    assert feed[..1][..0] == [];
    assert ListedItems(feed[..1]) == [] + [item];
    assert ListedItems(feed) == ListedItems(feed[..1]) + [item];
  }

  /** The loaded-set test in action: a new entry listed on two pages of
      one run is recorded, and notified, twice. */
  lemma RepeatedTitleNotifiedTwice(item: Item, loaded: set<string>, env: Services)
    requires IsNew(item, loaded)
    ensures var run := Run([Listing([item]), Listing([item])], loaded, env);
      && run.recorded == [TitleOf(item.link.value), TitleOf(item.link.value)]
      && PostCount(run.events) == 2
  {
    RunSummary([Listing([item]), Listing([item])], loaded, env);
    TwoListings(item);
    NewTitlesTwice(item, loaded);
  }

  /** A title already in the store is never notified again, whichever
      services the run meets. */
  lemma LoadedNeverNotified(feed: seq<Page>, loaded: set<string>, env: Services, i: nat)
    requires i < |ListedItems(feed[..FetchedPages(feed)])|
    requires var item := ListedItems(feed[..FetchedPages(feed)])[i];
      item.link.Some? && TitleOf(item.link.value) in loaded
    ensures TitleOf(ListedItems(feed[..FetchedPages(feed)])[i].link.value) !in Run(feed, loaded, env).recorded
  {
    var t := TitleOf(ListedItems(feed[..FetchedPages(feed)])[i].link.value);
    if t in Run(feed, loaded, env).recorded {
      RecordedAreNew(feed, loaded, env, t);
    }
  }

  /** An entry without a title element carries the sentinel title: its
      product id is "N", it holds no VR marker, and so whatever the flag for
      a title element says, its tags are the listing and detail tags alone. */
  lemma SentinelTitle(item: Item, hasTitleTag: bool, url: string, env: Services)
    ensures ProductId(NoTitle) == Some("N")
    ensures !HasVrMarker(NoTitle)
    ensures NoticeTags(item, NoTitle, hasTitleTag, url, env) ==
      ItemTags(item.listingTags, false, env.detailTags(url))
  {
    ProductIdOfSentinel();
    SentinelUnmarked();
  }

  lemma SentinelUnmarked()
    ensures !HasVrMarker(NoTitle)
  {
    assert '[' !in NoTitle && '\U{3010}' !in NoTitle;
    NoBracketNoVrMarker(NoTitle);
  }

  /** A recorded title with a line break inside it does not survive the
      store: the next run from the file this run saved records it, and so
      notifies it, again. */
  lemma MultiLineTitleNotifiedAgain(store: Option<string>, feed: seq<Page>, env1: Services, env2: Services, t: string)
    requires t in Run(feed, Load(store), env1).recorded
    requires '\n' in t || '\r' in t
    ensures var first := Run(feed, Load(store), env1).recorded;
      var saved := Serialize(SortedOf(Load(store) + Elems(first)));
      t in Run(feed, Load(Some(saved)), env2).recorded
  {
    var first := Run(feed, Load(store), env1).recorded;
    var reloaded := Load(Some(Serialize(SortedOf(Load(store) + Elems(first)))));
    RunSummary(feed, Load(store), env1);
    RunSummary(feed, reloaded, env2);
    var items := ListedItems(feed[..FetchedPages(feed)]);
    NewTitlesMembers(items, Load(store), t);
    LineBreakNeverLoaded(Some(Serialize(SortedOf(Load(store) + Elems(first)))), t);
    NewTitlesMembers(items, reloaded, t);
  }
}
