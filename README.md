# A verified model of the JavDB VR title scraper

`jdb.py` scrapes up to three listing pages of a JavDB search for VR titles, stopping early at the first page that lists no entries. It translates the title of every entry that has a link. For each listed entry whose link has a non-empty href and whose title is not in its processed-title store, it does four things:

- looks up a rating on jav321.com, when the title starts with a product id;
- collects tags from the listing and from the title's detail page;
- posts a Discord embed;
- records the title.

At the end of a run it rewrites the store with every title it knows.

This project models the logic of that script in Dafny and proves what it does. The model covers:

- the field extractors;
- the store codec;
- the embed field list;
- the page and item loops.

The network, the HTML parser and the translator are left to the caller.

## Modules

- `Options` (options.dfy): `Option` and the set of a sequence's elements.
- `Text` (text.dfy): the Python string operations the script relies on.
  - `str.isspace` and `strip`, with the exact Unicode whitespace set.
  - `lower` on product ids.
  - `", ".join`.
  - Code-point ordering of strings, proved a strict total order.
- `Ordering` (ordering.dfy): `sorted` applied to a set of strings.
  - `SortedOf` is the specification: least element first.
  - `Sorted` is the selection loop.
  - A strictly sorted listing of a set is proved to be unique.
- `Extract` (extract.dfy): the pure pieces of the item loop.
  - The product id (`[A-Z0-9-]+` at the head of the title).
  - The rating lookup key and the rating numeral (`\d+(\.\d+)?`).
  - The translation fallback.
  - The `【VR】` / `[VR]` marker.
  - The tag-collection loops.
- `Store` (store.dfy): the store file as text.
  - Reading uses universal newlines and `for line in f`, then strips each line into a set.
  - Writing emits each title of `sorted(...)` followed by `"\n"`.
- `Notify` (notify.dfy): the varying part of the payload `send_discord_message` posts. That is the ordered embed fields and the optional image.
- `Scraper` (scraper.dfy): the item loop body, the page loop and `scrape_new_vr_titles`, as methods proved against the specification functions `ItemEffects`, `PageStep` and `Run`.
  - The outside world is a `Services` value holding five functions: translator, `urljoin`, rating page, detail page and webhook.
  - Each listing page is given as an outcome: `PageFailed`, or the entries it lists.
  - Every call the run makes is logged as an `Event`. The logged calls are page fetch, translation, rating lookup, detail fetch and post.
- `RunFacts` (run_facts.dfy): properties of a whole run.
  - Which pages are fetched.
  - Which titles are recorded and notified.
  - Why a title is never notified twice across runs.
  - What the store holds afterwards.

Two behaviours of the code are kept exactly as written.

- **Deduplication tests the loaded set.** The item loop tests each title against the set loaded at the start, not against the set that grows during the run. A new title listed twice in one run is therefore notified twice.
- **Multi-line titles.** A title whose text holds a line break (`"\n"` or `"\r"`) is recorded as it is. When the store is read back, that title comes back as separate lines (`Store.MultiLineTitleSplits`), so it is never among the loaded titles (`Store.LineBreakNeverLoaded`). The next run, and so every later run, whose feed still lists it with an href therefore records and notifies it again (`RunFacts.MultiLineTitleNotifiedAgain`). For this reason the store round trip, and the claim that a second run stays quiet, both require titles without line breaks.

## Model

| member | source | states |
|---|---|---|
| Text.StripRemovesOnlyEdgeSpace | jdb.py:186 | `strip()` gives the infix of the input left after removing leading and trailing white space only: everything removed before or after it is white space, and the result has no white space at either end |
| Text.StripLine | jdb.py:38 | stripping a stored line, i.e. a title plus its line feed, gives back the title when the title has no surrounding white space |
| Text.LessTotal | jdb.py:44 | the code-point ordering of strings is total; with LessIrreflexive, LessTransitive and LessAsymmetric it is a strict total order |
| Ordering.Sorted | jdb.py:44 | `sorted(list(titles))` lists every element of the set exactly once, in strictly increasing order |
| Ordering.SortedUnique | jdb.py:126 | any strictly increasing listing of a set is the sorted listing, so the order is determined by the set alone |
| Ordering.SortedOfElems | jdb.py:44 | the sorted listing holds exactly the set's elements and has the set's size |
| Extract.ProductId | jdb.py:190-191 | the id exists iff the title is non-empty and starts with A-Z, 0-9 or '-'; it is then the longest such run at the head of the title |
| Extract.ProductIdExamples | jdb.py:186-191 | "ABC-123 Some Text" gives "ABC-123", "no leading code here" gives no id, and the sentinel "No Title Found" gives "N" |
| Extract.LowerIdInjective | jdb.py:65 | two different product ids never share a lookup key |
| Extract.FirstNumeralIsLeftmost | jdb.py:87-93 | the rating is absent iff the text has no digit; otherwise it is the leftmost, greedy `\d+(\.\d+)?` match, a non-empty substring of the text |
| Extract.Translated | jdb.py:48-57 | the result is the translator's text when that text is non-empty; otherwise, including when the translator raised, it is the input unchanged |
| Extract.DisplayTitle | jdb.py:193-194 | the display title always equals the translated title |
| Extract.HasVrMarkerIff | jdb.py:216-220 | the scan is true iff `【VR】` or `[VR]`, either letter in either case, occurs somewhere in the title |
| Extract.NoBracketNoVrMarker | jdb.py:219 | a title with neither `[` nor `【` never carries the marker |
| Extract.AddTags | jdb.py:209-215 | the loop adds exactly the non-empty stripped texts to the tag set |
| Extract.StrippedTagsMembers | jdb.py:209-215 | a tag text adds a tag iff its stripped form is non-empty, and the tag is that stripped form |
| Extract.CollectTags | jdb.py:207-250 | the item's tag set is the listing tags, "VR" for a marked title element, and the detail page's tags when that page was read |
| Extract.ItemTagsSources | jdb.py:207-257 | a tag is in the set iff one of the three sources gives it; no tag is empty; a failed detail page keeps the listing tags and equals reading a page with no tags |
| Store.Load | jdb.py:35-39 | a missing file loads as the empty set; every line of an existing file contributes its stripped form |
| Store.WriteLines | jdb.py:44-45 | the write loop emits the titles in the given order, each followed by a line feed |
| Store.Save | jdb.py:42-45 | the file is the titles in sorted order, each followed by a line feed |
| Store.LinesFlatten | jdb.py:38 | reading a file line by line loses and adds nothing |
| Store.LinesShape | jdb.py:38 | each line is non-empty, and every line but the last ends at its only line feed |
| Store.LoadSerialize | jdb.py:35-45 | loading a file written from storable titles, in any order, gives exactly those titles |
| Store.SaveLoadRoundTrip | jdb.py:35-45 | load after save gives back the same set, for titles without line breaks or surrounding white space |
| Store.MultiLineTitleSplits | jdb.py:35-45 | the saved title "A\nB" loads back as the two titles "A" and "B", neither of them the original |
| Store.LineBreakNeverLoaded | jdb.py:35-39 | a title containing a line break is never among the loaded titles, whatever the file holds |
| Store.LoadedStorable | jdb.py:35-39 | every loaded title is storable: it has no line break and no surrounding white space |
| Store.StoreKeepsTitles | jdb.py:35-45 | saving the loaded titles plus new storable ones and loading again gives exactly that union |
| Notify.TagsField | jdb.py:125-131 | the Tags field is appended exactly when the list of tags is non-empty, with the sorted tags of the list's set |
| Notify.BuildFields | jdb.py:103-131 | the successive appends build the field list for the set of the given tags, in whatever order and with whatever repeats they come |
| Notify.ComposeMessage | jdb.py:103-133 | the message is that field list; it has an image iff the image URL is present and non-empty, and the image is then that URL |
| Notify.EmbedFieldsLayout | jdb.py:104-131 | Title comes first and Source is always present; Rating is present, as the second field, iff the rating is non-empty; Tags comes last iff there are tags; no other field appears |
| Notify.TagsFieldSorted | jdb.py:125-131 | the Tags value is the strictly sorted, duplicate-free tags joined by ", " |
| Scraper.NoticeRating | jdb.py:221-225 | with no product id there is no rating; with one, the rating is the numeral read from the rating page fetched under the lower-cased id |
| Scraper.NoticeCallsShape | jdb.py:221-259 | a new entry makes one rating lookup with the lower-cased id when it has a product id and none otherwise, then one detail fetch, then exactly one post |
| Scraper.ItemEffects | jdb.py:180-260 | an entry without a link does nothing; a linked entry translates its title first; a title is recorded iff the entry has a non-empty href and its title was not loaded, and what is recorded is that title |
| Scraper.ItemEffectsCalls | jdb.py:180-260 | one entry makes one translation if linked, no page fetch, and one post exactly when its title is new |
| Scraper.HandleItem | jdb.py:180-260 | the item loop body makes exactly the calls and records exactly the title that `Scraper.ItemEffects` gives |
| Scraper.NotifyNewTitle | jdb.py:204-260 | for a new title, the rating lookup, detail fetch and post are exactly `Scraper.NoticeCalls`, and the posted message is `Scraper.NoticeMessage` |
| Scraper.ScrapePage | jdb.py:180-260 | the item loop over a page logs that page's calls and adds exactly its recorded titles to the set to be saved |
| Scraper.RunStopped | jdb.py:175-177 | once an empty listing has ended the page loop, later pages change nothing |
| Scraper.VisitPage | jdb.py:165-260 | one page-loop iteration logs the page fetch, skips a failed page, ends the loop on an empty listing, and otherwise runs the item loop, exactly as `Scraper.PageStep` |
| Scraper.Scrape | jdb.py:157-279 | the run's calls are those of `Scraper.Run`, and the saved file is the loaded titles plus the recorded ones, sorted |
| RunFacts.FetchedPages | jdb.py:164-177 | pages are fetched up to and including the first empty listing, or all of them; there is no empty listing before the last fetched page |
| RunFacts.NewTitlesMembers | jdb.py:196-204 | a title is recorded iff some entry with a non-empty href carries it and it was not loaded |
| RunFacts.PageEffectsSummary | jdb.py:180-260 | a page's item loop records its new titles, translates every linked title, fetches no page and posts once per recorded title |
| RunFacts.PageStepSummary | jdb.py:164-177 | one page-loop iteration fetches its page, ends the loop exactly on an empty listing and adds that page's item effects |
| RunFacts.RunUpToSummary | jdb.py:164-260 | while no earlier page ended the loop, the first k pages give pages 1..k fetched, their new titles recorded, their linked titles translated, and one post per recorded title |
| RunFacts.RunSummary | jdb.py:157-279 | a whole run fetches pages 1..n in order, records the new titles of those pages in order and with repeats, translates every linked title and posts once per recorded title |
| RunFacts.NoFetchAfterEnd | jdb.py:175-177 | no page after the first empty listing is ever fetched |
| RunFacts.RecordedIgnoresServices | jdb.py:153-154 | which titles are recorded does not depend on the translator, the rating and detail pages, or whether a post succeeded |
| RunFacts.RecordedAreNew | jdb.py:204 | a recorded title was not loaded and has no surrounding white space |
| RunFacts.LoadedNeverNotified | jdb.py:204 | a title already in the store is never recorded or notified again |
| RunFacts.NoNewTitles | jdb.py:204 | when every candidate's title is loaded, nothing is recorded |
| RunFacts.RunIdempotent | jdb.py:159-160 | a second run over the same feed from the loaded titles plus those the first run recorded records and posts nothing |
| RunFacts.SecondRunQuiet | jdb.py:35-279 | the store the run writes reloads as the loaded titles plus the recorded ones, and a second run from it over the same feed posts nothing, when the recorded titles have no line breaks |
| RunFacts.RepeatedTitleNotifiedTwice | jdb.py:204-260 | in a run over two pages that each list the same new entry, that entry's title is recorded twice and posted twice |
| RunFacts.SentinelTitle | jdb.py:186-220 | the sentinel title has product id "N" and no VR marker, so whatever the title-element flag says, its tags are the listing and detail tags alone |
| RunFacts.MultiLineTitleNotifiedAgain | jdb.py:35-45 | a recorded title holding `"\n"` or `"\r"` is recorded, and notified, again by the next run over the same feed from the file this run saved |

## Left out

- The network is not modelled. Sessions, GETs, POSTs, headers and `raise_for_status` are absent. Each fetch outcome is an input: a listing page is `PageFailed` or its entries, and the rating and detail pages are functions in `Services` that return `None` on failure.
- BeautifulSoup is not modelled. Entries are pre-extracted records:
  - the title element's raw text, if any;
  - the href, if any;
  - the image `src`;
  - the listing tag texts.

  The rating page is reduced to the text of its value element (`get_text(strip=True)`). The detail page is reduced to its tag link texts.
- The translator is modelled as a deterministic function of the text. A `None` or an empty reply stands for a failure or an exception. The real service may answer the same text differently on different calls.
- `urljoin` is an opaque function. The model relies only on the href being non-empty.
- The following are left out because they do not affect state:
  - `time.sleep` and the delay constants;
  - all printing;
  - the `found_new_on_page` / `found_any_new_titles` flags, which only select messages;
  - the startup check of `DISCORD_WEBHOOK_URL` with `exit(1)`.
- JSON serialisation and the constant payload parts are left out: content, description, colour, the empty title and URL, and the `{"url": ...}` image wrapper. The message keeps the fields and the image URL.
- The file system is reduced to an optional text. `None` means the file does not exist. Read errors, UTF-8 encoding, and the platform line separator on write (taken as "\n") are not modelled.
- Scraper.Scrape: the feed holds one outcome for each of the three pages (`requires |feed| == PageCount`).
- Scraper.ScrapePage: an unexpected exception midway through a page's item loop is not modelled (`except Exception` at the page level). The real run abandons the rest of that page.
- Scraper.NotifyNewTitle: the detail page is all or nothing. Tags added before a parse exception on the detail page are not kept, whereas the real code keeps them.
- Notify.ComposeMessage: the tags are passed as the sorted listing of the set, while `list(extracted_tags)` has an arbitrary order. `Notify.BuildFields` is proved for every order and repetition, so nothing depends on this choice.
- Extract.FirstNumeral: digits are ASCII `0`-`9`, whereas Python's `\d` also matches other Unicode decimal digits.
