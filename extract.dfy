/** The field extractors of the scraper, as pure functions over strings:
    the product id at the head of a title, the rating numeral of a rating
    page, the translation fallback, the VR title marker and the tag texts
    of listing and detail pages. The three regular expressions of `jdb.py`
    are written out as ASCII scans. */
module Extract {
  import opened Options
  import opened Text

  // ---------------------------------------------------------------------
  // Greedy character runs

  /** The longest prefix of `s` whose characters all satisfy `p`. */
  function TakeWhile(s: string, p: char -> bool): (r: string)
    ensures |r| <= |s| && r == s[..|r|]
    ensures forall i :: 0 <= i < |r| ==> p(r[i])
    ensures |r| == |s| || !p(s[|r|])
  {
    if s != [] && p(s[0]) then [s[0]] + TakeWhile(s[1..], p) else []
  }

  // ---------------------------------------------------------------------
  // Product id: re.match(r'([A-Z0-9-]+)', title)

  predicate IsIdChar(c: char) {
    ('A' <= c <= 'Z') || ('0' <= c <= '9') || c == '-'
  }

  /** `r` is the longest run of id characters that `s` starts with. */
  ghost predicate IsLeadingIdRun(r: string, s: string) {
    && |r| <= |s| && r == s[..|r|]
    && (forall i :: 0 <= i < |r| ==> IsIdChar(r[i]))
    && (|r| == |s| || !IsIdChar(s[|r|]))
  }

  /** The product id of a title: absent exactly when the title does not
      start with an id character, otherwise the whole leading run. */
  function ProductId(title: string): (id: Option<string>)
    ensures id.Some? <==> title != [] && IsIdChar(title[0])
    ensures id.Some? ==> id.value != [] && IsLeadingIdRun(id.value, title)
  {
    var run := TakeWhile(title, IsIdChar);
    if run == [] then None else Some(run)
  }

  /** The leading run is unique, so the contract of `ProductId` fixes its result. */
  lemma {:induction false} LeadingIdRunUnique(r1: string, r2: string, s: string)
    requires IsLeadingIdRun(r1, s) && IsLeadingIdRun(r2, s)
    ensures r1 == r2
  {
  }

  /** The product id of a title that starts with a code, of one that does
      not, and of the sentinel title. */
  lemma ProductIdExamples()
    ensures ProductId("ABC-123 Some Text") == Some("ABC-123")
    ensures ProductId("no leading code here") == None
    ensures ProductId("No Title Found") == Some("N")
  {
    ProductIdOfCode();
    ProductIdOfSentinel();
    assert !IsIdChar("no leading code here"[0]);
  }

  lemma ProductIdOfCode()
    ensures ProductId("ABC-123 Some Text") == Some("ABC-123")
  {
    var t := "ABC-123 Some Text";
    assert IsLeadingIdRun("ABC-123", t);
    LeadingIdRunUnique(ProductId(t).value, "ABC-123", t);
  }

  lemma ProductIdOfSentinel()
    ensures ProductId("No Title Found") == Some("N")
  {
    var n := "No Title Found";
    assert IsLeadingIdRun("N", n);
    LeadingIdRunUnique(ProductId(n).value, "N", n);
  }

  // ---------------------------------------------------------------------
  // Rating lookup key and rating numeral

  /** The key of the rating lookup: the lower-cased product id, or no lookup
      at all when the id is missing or empty. */
  function RatingKey(productId: Option<string>): Option<string> {
    if productId.Some? && productId.value != "" then Some(Lower(productId.value)) else None
  }

  /** Lower-casing loses nothing on product ids: different ids get
      different lookup keys. */
  lemma LowerIdInjective(a: string, b: string)
    requires forall i :: 0 <= i < |a| ==> IsIdChar(a[i])
    requires forall i :: 0 <= i < |b| ==> IsIdChar(b[i])
    requires Lower(a) == Lower(b)
    ensures a == b
  {
    assert |a| == |b|;
    forall i | 0 <= i < |a|
      ensures a[i] == b[i]
    {
      assert LowerChar(a[i]) == LowerChar(b[i]);
    }
  }

  predicate IsDigit(c: char) {
    '0' <= c <= '9'
  }

  /** A numeral as `\d+(\.\d+)?` matches it. */
  ghost predicate IsNumeral(r: string) {
    && r != [] && IsDigit(r[0]) && IsDigit(r[|r| - 1])
    && (forall i :: 0 <= i < |r| ==> IsDigit(r[i]) || r[i] == '.')
    && (forall i, j :: 0 <= i < |r| && 0 <= j < |r| && r[i] == '.' && r[j] == '.' ==> i == j)
  }

  /** The greedy numeral at the head of `s`, which starts with a digit. */
  function NumeralAt(s: string): (r: string)
    requires s != [] && IsDigit(s[0])
  {
    var whole := TakeWhile(s, IsDigit);
    var rest := s[|whole|..];
    if |rest| >= 2 && rest[0] == '.' && IsDigit(rest[1])
    then whole + "." + TakeWhile(rest[1..], IsDigit)
    else whole
  }

  /** What the leftmost greedy match of `\d+(\.\d+)?` in `s` is: a numeral
      found at position `k`, with no digit before it, that can be extended
      neither by a digit nor, when it has no fraction, by a fraction. */
  ghost predicate IsFirstNumeral(r: string, s: string, k: nat) {
    && IsNumeral(r)
    && k + |r| <= |s| && s[k..k + |r|] == r
    && (forall i :: 0 <= i < k ==> !IsDigit(s[i]))
    && (k + |r| == |s| || !IsDigit(s[k + |r|]))
    && ((forall i :: 0 <= i < |r| ==> r[i] != '.') ==>
          !(k + |r| + 1 < |s| && s[k + |r|] == '.' && IsDigit(s[k + |r| + 1])))
  }

  /** `re.search(r'(\d+(\.\d+)?)', text).group(1)`, or nothing. */
  function FirstNumeral(s: string): (r: Option<string>)
  {
    if s == [] then None
    else if IsDigit(s[0]) then Some(NumeralAt(s))
    else FirstNumeral(s[1..])
  }

  lemma NumeralAtIsFirst(s: string)
    requires s != [] && IsDigit(s[0])
    ensures IsFirstNumeral(NumeralAt(s), s, 0)
  {
    var whole := TakeWhile(s, IsDigit);
    var rest := s[|whole|..];
    if |rest| >= 2 && rest[0] == '.' && IsDigit(rest[1]) {
      FractionNumeral(s, whole, rest);
    } else {
      WholeNumeral(s, whole, rest);
    }
  }

  /** Digits, a point and more digits make a numeral. */
  lemma DottedNumeral(whole: string, frac: string)
    requires whole != [] && frac != []
    requires forall i :: 0 <= i < |whole| ==> IsDigit(whole[i])
    requires forall i :: 0 <= i < |frac| ==> IsDigit(frac[i])
    ensures IsNumeral(whole + "." + frac)
  {
    var r := whole + "." + frac;
    forall i | 0 <= i < |r| && i != |whole|
      ensures IsDigit(r[i])
    {
      if i < |whole| {
        assert r[i] == whole[i];
      } else {
        assert r[i] == frac[i - |whole| - 1];
      }
    }
    assert r[|r| - 1] == frac[|frac| - 1];
    assert r[|whole|] == '.';
  }

  /** Digits, a point and the digits after it, read off the head of `s`. */
  lemma DottedPrefix(s: string, whole: string, frac: string)
    requires |whole| < |s| && s[..|whole|] == whole && s[|whole|] == '.'
    requires |whole| + 1 + |frac| <= |s| && s[|whole| + 1..][..|frac|] == frac
    ensures s[..|whole| + 1 + |frac|] == whole + "." + frac
  {
    var r := whole + "." + frac;
    forall i | 0 <= i < |r|
      ensures s[i] == r[i]
    {
      if i > |whole| {
        assert s[i] == s[|whole| + 1..][..|frac|][i - |whole| - 1];
      }
    }
  }

  /** The numeral at the head of `s` when a fraction follows the digits. */
  lemma FractionNumeral(s: string, whole: string, rest: string)
    requires s != [] && IsDigit(s[0])
    requires whole == TakeWhile(s, IsDigit) && rest == s[|whole|..]
    requires |rest| >= 2 && rest[0] == '.' && IsDigit(rest[1])
    ensures IsFirstNumeral(NumeralAt(s), s, 0)
  {
    var frac := TakeWhile(rest[1..], IsDigit);
    var r := whole + "." + frac;
    assert NumeralAt(s) == r;
    assert rest[1..] == s[|whole| + 1..];
    DottedNumeral(whole, frac);
    DottedPrefix(s, whole, frac);
    assert r[|whole|] == '.';
    if |r| < |s| {
      assert s[|r|] == rest[1..][|frac|];
    }
  }

  /** The numeral at the head of `s` when no fraction follows the digits. */
  lemma WholeNumeral(s: string, whole: string, rest: string)
    requires s != [] && IsDigit(s[0])
    requires whole == TakeWhile(s, IsDigit) && rest == s[|whole|..]
    requires !(|rest| >= 2 && rest[0] == '.' && IsDigit(rest[1]))
    ensures IsFirstNumeral(NumeralAt(s), s, 0)
  {
    var r := NumeralAt(s);
    assert r == whole;
    assert s[..|r|] == r;
    assert whole[0] == s[0];
    if |r| + 1 < |s| && s[|r|] == '.' {
      assert rest[0] == s[|r|] && rest[1] == s[|r| + 1];
    }
  }

  /** A leading non-digit moves the leftmost numeral one place right. */
  lemma FirstNumeralShift(s: string, r: string, k: nat)
    requires s != [] && !IsDigit(s[0])
    requires IsFirstNumeral(r, s[1..], k)
    ensures IsFirstNumeral(r, s, k + 1)
  {
    var t := s[1..];
    assert s[k + 1..k + 1 + |r|] == r by {
      forall i | 0 <= i < |r|
        ensures s[k + 1 + i] == r[i]
      {
        assert t[k..k + |r|][i] == r[i];
      }
    }
    forall i | 0 <= i < k + 1
      ensures !IsDigit(s[i])
    {
      if i > 0 {
        assert s[i] == t[i - 1];
      }
    }
    if k + 1 + |r| < |s| {
      assert s[k + 1 + |r|] == t[k + |r|];
    }
    if k + 1 + |r| + 1 < |s| {
      assert s[k + 1 + |r| + 1] == t[k + |r| + 1];
    }
  }

  /** The rating numeral is present exactly when the text has a digit, and
      then it is the leftmost greedy numeral of the text. */
  lemma {:induction false} FirstNumeralIsLeftmost(s: string)
    ensures FirstNumeral(s).None? <==> forall i :: 0 <= i < |s| ==> !IsDigit(s[i])
    ensures FirstNumeral(s).Some? ==> exists k: nat :: IsFirstNumeral(FirstNumeral(s).value, s, k)
  {
    if s == [] {
    } else if IsDigit(s[0]) {
      NumeralAtIsFirst(s);
    } else {
      FirstNumeralIsLeftmost(s[1..]);
      if FirstNumeral(s[1..]).Some? {
        var r := FirstNumeral(s[1..]).value;
        var k: nat :| IsFirstNumeral(r, s[1..], k);
        FirstNumeralShift(s, r, k);
      } else {
        forall i | 0 <= i < |s|
          ensures !IsDigit(s[i])
        {
          if i > 0 { assert s[i] == s[1..][i - 1]; }
        }
      }
    }
  }

  /** `get_jav321_rating` after the page fetch: the numeral in the text of the
      rating value element, when the page had one. */
  function RatingFromValue(valueText: Option<string>): (rating: Option<string>)
  {
    match valueText
    case None => None
    case Some(text) => FirstNumeral(text)
  }

  // ---------------------------------------------------------------------
  // Translation fallback

  /** `translate_text`: the translator's text when there is a non-empty one;
      otherwise (no result, empty text, or an exception, all `None` or `""`
      here) the input unchanged. */
  function Translated(text: string, reply: Option<string>): (r: string)
    ensures reply.Some? && reply.value != "" ==> r == reply.value
    ensures reply.None? || reply.value == "" ==> r == text
    ensures r == text || (reply == Some(r) && r != "")
  {
    if reply.Some? && reply.value != "" then reply.value else text
  }

  /** `translated if translated != original else original` is just the
      translated title. */
  function DisplayTitle(original: string, translated: string): (r: string)
    ensures r == translated
  {
    if translated != original then translated else original
  }

  // ---------------------------------------------------------------------
  // VR marker: re.search(r'【VR】|\[VR\]', title, re.IGNORECASE)

  /** `【VR】` or `[VR]`, either letter in either case, at position `i`. */
  predicate VrMarkerAt(s: string, i: int) {
    && 0 <= i && i + 4 <= |s|
    && ((s[i] == '\U{3010}' && s[i + 3] == '\U{3011}') || (s[i] == '[' && s[i + 3] == ']'))
    && (s[i + 1] == 'V' || s[i + 1] == 'v')
    && (s[i + 2] == 'R' || s[i + 2] == 'r')
  }

  /** The scan the regular expression search performs. */
  function HasVrMarker(s: string): bool
  {
    |s| >= 4 && (VrMarkerAt(s, 0) || HasVrMarker(s[1..]))
  }

  lemma {:induction false} HasVrMarkerIff(s: string)
    ensures HasVrMarker(s) <==> exists i :: VrMarkerAt(s, i)
  {
    if |s| >= 4 {
      HasVrMarkerIff(s[1..]);
      if exists i :: VrMarkerAt(s[1..], i) {
        var i :| VrMarkerAt(s[1..], i);
        assert VrMarkerAt(s, i + 1);
      }
      if exists i :: VrMarkerAt(s, i) {
        var i :| VrMarkerAt(s, i);
        if i > 0 {
          assert VrMarkerAt(s[1..], i - 1);
        }
      }
    }
  }

  /** A title without an opening bracket, square or lenticular, holds no
      VR marker. */
  lemma {:induction false} NoBracketNoVrMarker(s: string)
    requires '[' !in s && '\U{3010}' !in s
    ensures !HasVrMarker(s)
  {
    if |s| >= 4 {
      assert s[0] in s;
      assert forall c :: c in s[1..] ==> c in s;
      NoBracketNoVrMarker(s[1..]);
    }
  }

  // ---------------------------------------------------------------------
  // Tags

  /** The non-empty values `f` gives for the texts, as a set. */
  function NonEmptyImages(texts: seq<string>, f: string -> string): set<string>
    decreases |texts|
  {
    if texts == [] then {}
    else
      var text := f(texts[|texts| - 1]);
      NonEmptyImages(texts[..|texts| - 1], f) + (if text != "" then {text} else {})
  }

  /** The non-empty stripped texts of a list of tag elements. */
  function StrippedTags(texts: seq<string>): set<string> {
    NonEmptyImages(texts, Strip)
  }

  /** The loop that `add`s each non-empty stripped tag text to a tag set. */
  method AddTags(tags: set<string>, texts: seq<string>) returns (r: set<string>)
    ensures r == tags + StrippedTags(texts)
  {
    r := tags;
    for i := 0 to |texts|
      invariant r == tags + StrippedTags(texts[..i])
    {
      var text := Strip(texts[i]);
      if text != "" {
        r := r + {text};
      }
      assert texts[..i + 1][..i] == texts[..i];
    }
    assert texts[..|texts|] == texts;
  }

  /** The tag set of one listing entry: its listing tags, "VR" when the
      title element carries the VR marker, and the detail page's tags when
      that page was read. */
  function ItemTags(listing: seq<string>, vrMarked: bool, detail: Option<seq<string>>): set<string>
  {
    StrippedTags(listing)
      + (if vrMarked then {"VR"} else {})
      + (if detail.Some? then StrippedTags(detail.value) else {})
  }

  /** The tag collection of `scrape_new_vr_titles` in jdb.py, lines 207-257: the listing tags, then "VR", then the
      detail page's tags, gathered into one set. */
  method CollectTags(listing: seq<string>, vrMarked: bool, detail: Option<seq<string>>) returns (tags: set<string>)
    ensures tags == ItemTags(listing, vrMarked, detail)
  {
    tags := AddTags({}, listing);
    if vrMarked {
      tags := tags + {"VR"};
    }
    if detail.Some? {
      tags := AddTags(tags, detail.value);
    }
  }

  /** A text contributes exactly its non-empty image. */
  lemma {:induction false} NonEmptyImagesMembers(texts: seq<string>, f: string -> string, t: string)
    ensures t in NonEmptyImages(texts, f) <==> exists i :: 0 <= i < |texts| && f(texts[i]) == t && t != ""
    decreases |texts|
  {
    if texts != [] {
      var init := texts[..|texts| - 1];
      NonEmptyImagesMembers(init, f, t);
      if exists i :: 0 <= i < |texts| && f(texts[i]) == t && t != "" {
        var i :| 0 <= i < |texts| && f(texts[i]) == t && t != "";
        if i < |texts| - 1 {
          assert init[i] == texts[i];
        }
      }
      if exists i :: 0 <= i < |init| && f(init[i]) == t && t != "" {
        var i :| 0 <= i < |init| && f(init[i]) == t && t != "";
        assert texts[i] == init[i];
      }
    }
  }

  /** A tag text contributes exactly its non-empty stripped form. */
  lemma StrippedTagsMembers(texts: seq<string>, t: string)
    ensures t in StrippedTags(texts) <==> exists i :: 0 <= i < |texts| && Strip(texts[i]) == t && t != ""
  {
    NonEmptyImagesMembers(texts, Strip, t);
  }

  /** Each tag of an entry comes from one of the three sources as stated,
      no tag is empty, and a failed detail page keeps the listing tags. */
  lemma ItemTagsSources(listing: seq<string>, vrMarked: bool, detail: Option<seq<string>>, t: string)
    ensures t in ItemTags(listing, vrMarked, detail) <==>
      || (exists i :: 0 <= i < |listing| && Strip(listing[i]) == t && t != "")
      || (vrMarked && t == "VR")
      || (detail.Some? && exists i :: 0 <= i < |detail.value| && Strip(detail.value[i]) == t && t != "")
    ensures "" !in ItemTags(listing, vrMarked, detail)
    ensures StrippedTags(listing) <= ItemTags(listing, vrMarked, detail)
    ensures detail.None? ==> ItemTags(listing, vrMarked, detail) == ItemTags(listing, vrMarked, Some([]))
  {
    StrippedTagsMembers(listing, t);
    StrippedTagsMembers(listing, "");
    if detail.Some? {
      StrippedTagsMembers(detail.value, t);
      StrippedTagsMembers(detail.value, "");
    }
    assert StrippedTags([]) == {};
  }
}
