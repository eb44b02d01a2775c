/** `scrape_new_vr_titles`: the run over the listing pages. Network calls,
    HTML extraction and the translator are inputs: a page is already split
    into entries, and the translator, `urljoin`, the rating page, the detail
    page and the webhook are functions of a `Services` value. Every call the
    run makes is logged as an `Event`, so that what is fetched, in which
    order, and what is never fetched can be stated. */
module Scraper {
  import opened Options
  import opened Text
  import opened Ordering
  import opened Extract
  import opened Store
  import opened Notify

  /** NUMBER_OF_PAGES_TO_SCRAPE */
  const PageCount := 3

  /** The title recorded for an entry that has no title element. */
  const NoTitle := "No Title Found"

  /** The `a.box` link of an entry: the raw text of its title element (if
      there is one) and its `href` attribute (if there is one). */
  datatype Link = Link(titleText: Option<string>, href: Option<string>)

  /** A `div.item` of a listing page: its link, the `src` of its lazy image
      and the texts of its listing tag elements. */
  datatype Item = Item(link: Option<Link>, image: Option<string>, listingTags: seq<string>)

  /** The outcome of fetching and parsing one listing page. */
  datatype Page = PageFailed | Listing(items: seq<Item>)

  /** The outside world, one function per collaborator:
      - translate: the translator's text, `None` when it raised or gave nothing;
      - resolve: `urljoin` of the listing URL and an href;
      - ratingValue: the text of the rating value element of the rating page
        for a lookup key, `None` when the fetch failed or there is no rating;
      - detailTags: the tag link texts of a detail page, `None` when the
        fetch or the parse failed;
      - webhook: whether the post of a message succeeded. */
  datatype Services = Services(
    translate: string -> Option<string>,
    resolve: string -> string,
    ratingValue: string -> Option<string>,
    detailTags: string -> Option<seq<string>>,
    webhook: Message -> bool)

  /** One call to the outside world. */
  datatype Event =
    | FetchPage(page: nat)
    | Translate(text: string)
    | LookupRating(key: string)
    | FetchDetail(url: string)
    | Post(message: Message, delivered: bool)

  /** `original_title`: the stripped title text, or the sentinel. */
  function TitleOf(link: Link): string {
    if link.titleText.Some? then Strip(link.titleText.value) else NoTitle
  }

  predicate HasHref(link: Link) {
    link.href.Some? && link.href.value != ""
  }

  /** An entry that passes the link and href checks. */
  predicate IsCandidate(item: Item) {
    item.link.Some? && HasHref(item.link.value)
  }

  /** The deduplication test: a candidate whose title is not in the set
      loaded at the start of the run. */
  predicate IsNew(item: Item, loaded: set<string>) {
    IsCandidate(item) && TitleOf(item.link.value) !in loaded
  }

  /** The calls made for one entry and the title it records, if any. */
  datatype ItemResult = ItemResult(events: seq<Event>, recorded: Option<string>)

  function PageFetches(events: seq<Event>): seq<nat> {
    if events == [] then []
    else (if events[0].FetchPage? then [events[0].page] else []) + PageFetches(events[1..])
  }

  function Translations(events: seq<Event>): seq<string> {
    if events == [] then []
    else (if events[0].Translate? then [events[0].text] else []) + Translations(events[1..])
  }

  function PostCount(events: seq<Event>): nat {
    if events == [] then 0 else (if events[0].Post? then 1 else 0) + PostCount(events[1..])
  }

  lemma {:induction false} EventsConcat(a: seq<Event>, b: seq<Event>)
    ensures PageFetches(a + b) == PageFetches(a) + PageFetches(b)
    ensures Translations(a + b) == Translations(a) + Translations(b)
    ensures PostCount(a + b) == PostCount(a) + PostCount(b)
  {
    if a != [] {
      assert (a + b)[1..] == a[1..] + b;
      EventsConcat(a[1..], b);
    } else {
      assert a + b == b;
    }
  }

  /** The rating of a new entry: looked up only when it has a product id. */
  function NoticeRating(title: string, env: Services): (rating: Option<string>)
    ensures ProductId(title).None? ==> rating.None?
    ensures ProductId(title).Some? ==>
      rating == RatingFromValue(env.ratingValue(Lower(ProductId(title).value)))
  {
    var key := RatingKey(ProductId(title));
    if key.Some? then RatingFromValue(env.ratingValue(key.value)) else None
  }

  /** The tags of a new entry. */
  function NoticeTags(item: Item, title: string, hasTitleTag: bool, url: string, env: Services): set<string> {
    ItemTags(item.listingTags, hasTitleTag && HasVrMarker(title), env.detailTags(url))
  }

  /** The message posted for a new entry. */
  ghost function NoticeMessage(item: Item, title: string, hasTitleTag: bool, display: string, url: string,
                               env: Services): Message {
    EmbedMessage(display, url, item.image, NoticeTags(item, title, hasTitleTag, url, env), NoticeRating(title, env))
  }

  /** The calls made for a new entry: the rating lookup when it has a
      product id, the detail page, and the post of its message. */
  ghost function NoticeCalls(item: Item, title: string, hasTitleTag: bool, display: string, url: string,
                             env: Services): seq<Event>
  {
    var key := RatingKey(ProductId(title));
    var message := NoticeMessage(item, title, hasTitleTag, display, url, env);
    (if key.Some? then [LookupRating(key.value)] else [])
      + [FetchDetail(url), Post(message, env.webhook(message))]
  }

  /** A new entry makes one rating lookup when it has a product id and none
      otherwise, one detail fetch, then one post, and nothing else. */
  lemma NoticeCallsShape(item: Item, title: string, hasTitleTag: bool, display: string, url: string, env: Services)
    ensures var calls := NoticeCalls(item, title, hasTitleTag, display, url, env);
      && PageFetches(calls) == [] && Translations(calls) == [] && PostCount(calls) == 1
      && |calls| == (if ProductId(title).Some? then 3 else 2)
      && (ProductId(title).Some? ==> calls[0] == LookupRating(Lower(ProductId(title).value)))
      && calls[|calls| - 2] == FetchDetail(url)
  {
    var key := RatingKey(ProductId(title));
    var message := NoticeMessage(item, title, hasTitleTag, display, url, env);
    var post := [Post(message, env.webhook(message))];
    var tail := [FetchDetail(url)] + post;
    assert post[1..] == [];
    assert PageFetches(post) == [] && Translations(post) == [] && PostCount(post) == 1;
    assert tail[1..] == post;
    assert PageFetches(tail) == [] && Translations(tail) == [] && PostCount(tail) == 1;
    var lookup: seq<Event> := if key.Some? then [LookupRating(key.value)] else [];
    assert NoticeCalls(item, title, hasTitleTag, display, url, env) == lookup + tail;
    if key.Some? {
      assert lookup[1..] == [];
    }
    assert PageFetches(lookup) == [] && Translations(lookup) == [] && PostCount(lookup) == 0;
    EventsConcat(lookup, tail);
  }

  /** The body of the item loop for one entry. */
  ghost function ItemEffects(item: Item, loaded: set<string>, env: Services): (r: ItemResult)
    ensures item.link.None? ==> r == ItemResult([], None)
    ensures item.link.Some? ==> |r.events| > 0 && r.events[0] == Translate(TitleOf(item.link.value))
    ensures r.recorded.Some? <==> IsNew(item, loaded)
    ensures r.recorded.Some? ==> r.recorded.value == TitleOf(item.link.value)
  {
    match item.link
    case None => ItemResult([], None)
    case Some(link) =>
      var title := TitleOf(link);
      var translated := [Translate(title)];
      if !HasHref(link) || title in loaded then ItemResult(translated, None)
      else
        var display := Translated(title, env.translate(title));
        var url := env.resolve(link.href.value);
        ItemResult(translated + NoticeCalls(item, title, link.titleText.Some?, display, url, env), Some(title))
  }

  /** One entry makes exactly one translation call when it has a link, no
      listing fetch, and one post exactly when it records its title. */
  lemma ItemEffectsCalls(item: Item, loaded: set<string>, env: Services)
    ensures PageFetches(ItemEffects(item, loaded, env).events) == []
    ensures Translations(ItemEffects(item, loaded, env).events) ==
      (if item.link.Some? then [TitleOf(item.link.value)] else [])
    ensures PostCount(ItemEffects(item, loaded, env).events) ==
      (if IsNew(item, loaded) then 1 else 0)
  {
    if item.link.Some? {
      var link := item.link.value;
      var title := TitleOf(link);
      var first := [Translate(title)];
      assert first[1..] == [];
      assert PageFetches(first) == [] && Translations(first) == [title] && PostCount(first) == 0;
      if !IsNew(item, loaded) {
        assert ItemEffects(item, loaded, env).events == first;
      } else {
        var display := Translated(title, env.translate(title));
        var url := env.resolve(link.href.value);
        NoticeCallsShape(item, title, link.titleText.Some?, display, url, env);
        EventsConcat(first, NoticeCalls(item, title, link.titleText.Some?, display, url, env));
      }
    }
  }

  /** What the item loop adds for a whole page. */
  datatype Trace = Trace(events: seq<Event>, recorded: seq<string>)

  function RecordedSeq(r: Option<string>): seq<string> {
    if r.Some? then [r.value] else []
  }

  /** The item loop over the entries of one page, in page order. */
  ghost function PageEffects(items: seq<Item>, loaded: set<string>, env: Services): Trace
    decreases |items|
  {
    if items == [] then Trace([], [])
    else
      var before := PageEffects(items[..|items| - 1], loaded, env);
      var r := ItemEffects(items[|items| - 1], loaded, env);
      Trace(before.events + r.events, before.recorded + RecordedSeq(r.recorded))
  }

  /** The state of the run after some pages: the calls so far, the titles
      recorded so far, and whether an empty page has ended the page loop. */
  datatype RunState = RunState(events: seq<Event>, recorded: seq<string>, stopped: bool)

  /** A page without entries: the page loop ends there. */
  predicate EndOfFeed(page: Page) {
    page.Listing? && page.items == []
  }

  /** One iteration of the page loop, for page number `number`. */
  ghost function PageStep(st: RunState, number: nat, page: Page, loaded: set<string>, env: Services): RunState {
    var fetched := st.events + [FetchPage(number)];
    match page
    case PageFailed => RunState(fetched, st.recorded, false)
    case Listing(items) =>
      if items == [] then RunState(fetched, st.recorded, true)
      else
        var t := PageEffects(items, loaded, env);
        RunState(fetched + t.events, st.recorded + t.recorded, false)
  }

  /** The page loop over the first `k` pages of the feed. */
  ghost function RunUpTo(feed: seq<Page>, k: nat, loaded: set<string>, env: Services): RunState
    requires k <= |feed|
    decreases k
  {
    if k == 0 then RunState([], [], false)
    else
      var before := RunUpTo(feed, k - 1, loaded, env);
      if before.stopped then before else PageStep(before, k, feed[k - 1], loaded, env)
  }

  /** The whole page loop; `feed[i]` is the outcome of fetching page i + 1. */
  ghost function Run(feed: seq<Page>, loaded: set<string>, env: Services): RunState {
    RunUpTo(feed, |feed|, loaded, env)
  }

  /** Once the page loop has ended, later pages change nothing. */
  lemma {:induction false} RunStopped(feed: seq<Page>, k: nat, m: nat, loaded: set<string>, env: Services)
    requires k <= m <= |feed|
    requires RunUpTo(feed, k, loaded, env).stopped
    ensures RunUpTo(feed, m, loaded, env) == RunUpTo(feed, k, loaded, env)
    decreases m
  {
    if m > k {
      RunStopped(feed, k, m - 1, loaded, env);
      RunUpToAfterEnd(feed, m, loaded, env);
    }
  }

  /** A page loop that has ended stays where it is for one more page. */
  lemma RunUpToAfterEnd(feed: seq<Page>, k: nat, loaded: set<string>, env: Services)
    requires 0 < k <= |feed|
    requires RunUpTo(feed, k - 1, loaded, env).stopped
    ensures RunUpTo(feed, k, loaded, env) == RunUpTo(feed, k - 1, loaded, env)
  {
  }

  /** One more page of a page loop that has not ended. */
  lemma RunUpToNext(feed: seq<Page>, k: nat, loaded: set<string>, env: Services)
    requires 0 < k <= |feed|
    requires !RunUpTo(feed, k - 1, loaded, env).stopped
    ensures RunUpTo(feed, k, loaded, env) == PageStep(RunUpTo(feed, k - 1, loaded, env), k, feed[k - 1], loaded, env)
  {
  }

  /** The item loop body of `scrape_new_vr_titles` in jdb.py, lines 180-260, for one entry. */
  method HandleItem(item: Item, loaded: set<string>, env: Services)
    returns (events: seq<Event>, recorded: Option<string>)
    ensures ItemResult(events, recorded) == ItemEffects(item, loaded, env)
  {
    events := [];
    recorded := None;
    if item.link.None? {
      return;
    }
    var link := item.link.value;
    var original := if link.titleText.Some? then Strip(link.titleText.value) else NoTitle;
    events := [Translate(original)];
    var translated := Translated(original, env.translate(original));
    var display := DisplayTitle(original, translated);
    if link.href.None? || link.href.value == "" {
      return;
    }
    var url := env.resolve(link.href.value);
    if original !in loaded {
      var calls := NotifyNewTitle(item, original, link.titleText.Some?, display, url, env);
      events := events + calls;
      recorded := Some(original);
    }
  }

  /** The body of `if original_title not in processed_titles` in
      `scrape_new_vr_titles` (jdb.py, lines 204-260):
      collect the tags, look up the rating, read the detail page and post. */
  method NotifyNewTitle(item: Item, title: string, hasTitleTag: bool, display: string, url: string,
                        env: Services) returns (calls: seq<Event>)
    ensures calls == NoticeCalls(item, title, hasTitleTag, display, url, env)
  {
    calls := [];
    var rating: Option<string> := None;
    var key := RatingKey(ProductId(title));
    if key.Some? {
      calls := [LookupRating(key.value)];
      rating := RatingFromValue(env.ratingValue(key.value));
    }
    assert rating == NoticeRating(title, env);
    var detail := env.detailTags(url);
    var tags := CollectTags(item.listingTags, hasTitleTag && HasVrMarker(title), detail);
    var message := ComposeMessage(display, url, item.image, tags, rating);
    assert message == NoticeMessage(item, title, hasTitleTag, display, url, env);
    calls := calls + [FetchDetail(url), Post(message, env.webhook(message))];
  }

  /** The item loop over one more entry. */
  lemma PageEffectsSnoc(items: seq<Item>, j: nat, loaded: set<string>, env: Services)
    requires j < |items|
    ensures var before := PageEffects(items[..j], loaded, env);
      var r := ItemEffects(items[j], loaded, env);
      PageEffects(items[..j + 1], loaded, env) == Trace(before.events + r.events, before.recorded + RecordedSeq(r.recorded))
  {
    assert items[..j + 1][..j] == items[..j];
  }

  /** The item loop of one listing page: every entry in page order, each
      new title added to the set that will be saved. */
  method ScrapePage(items: seq<Item>, processed: set<string>, newly: set<string>, env: Services)
    returns (events: seq<Event>, saved: set<string>)
    ensures events == PageEffects(items, processed, env).events
    ensures saved == newly + Elems(PageEffects(items, processed, env).recorded)
  {
    events := [];
    saved := newly;
    ghost var recorded: seq<string> := [];
    for j := 0 to |items|
      invariant events == PageEffects(items[..j], processed, env).events
      invariant recorded == PageEffects(items[..j], processed, env).recorded
      invariant saved == newly + Elems(recorded)
    {
      var itemEvents, title := HandleItem(items[j], processed, env);
      ghost var r := ItemEffects(items[j], processed, env);
      assert itemEvents == r.events && title == r.recorded;
      PageEffectsSnoc(items, j, processed, env);
      ElemsConcat(recorded, RecordedSeq(title));
      events := events + itemEvents;
      if title.Some? {
        saved := saved + {title.value};
      }
      recorded := recorded + RecordedSeq(title);
    }
    assert items[..|items|] == items;
  }

  /** One iteration of the page loop (the body of its `try`): fetch the
      page; a failed page is skipped, an empty listing ends the loop, and
      otherwise the item loop runs over its entries. */
  method VisitPage(number: nat, page: Page, processed: set<string>, newly: set<string>, log: seq<Event>,
                   ghost st: RunState, env: Services)
    returns (log': seq<Event>, newly': set<string>, stop: bool)
    requires log == st.events && newly == processed + Elems(st.recorded)
    ensures var next := PageStep(st, number, page, processed, env);
      && log' == next.events && newly' == processed + Elems(next.recorded) && stop == next.stopped
  {
    log' := log + [FetchPage(number)];
    newly' := newly;
    stop := false;
    match page {
      case PageFailed =>
      case Listing(items) =>
        if items == [] {
          stop := true;
        } else {
          ghost var t := PageEffects(items, processed, env);
          var events;
          events, newly' := ScrapePage(items, processed, newly, env);
          ElemsConcat(st.recorded, t.recorded);
          log' := log' + events;
        }
    }
  }

  /** `scrape_new_vr_titles`: load the store, run the page loop over the
      feed, and return the text written back to the store with the log of
      calls made. */
  method Scrape(store: Option<string>, feed: seq<Page>, env: Services)
    returns (saved: string, log: seq<Event>)
    requires |feed| == PageCount
    ensures log == Run(feed, Load(store), env).events
    ensures saved == Serialize(SortedOf(Load(store) + Elems(Run(feed, Load(store), env).recorded)))
  {
    var processed := Load(store);
    var newly := processed;
    log := [];
    ghost var st := RunState([], [], false);
    var page := 1;
    while page <= PageCount
      invariant 1 <= page <= PageCount + 1
      invariant st == RunUpTo(feed, page - 1, processed, env) && !st.stopped
      invariant log == st.events && newly == processed + Elems(st.recorded)
      decreases PageCount + 1 - page
    {
      RunUpToNext(feed, page, processed, env);
      var stop;
      log, newly, stop := VisitPage(page, feed[page - 1], processed, newly, log, st, env);
      st := PageStep(st, page, feed[page - 1], processed, env);
      if stop {
        RunStopped(feed, page, |feed|, processed, env);
        break;
      }
      page := page + 1;
    }
    assert st == Run(feed, processed, env);
    saved := Save(newly);
  }
}
