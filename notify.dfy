/** The notification `send_discord_message` posts: the ordered embed fields
    and the optional image. The constant parts of the payload (content,
    description, colour) and the HTTP post itself are outside the model. */
module Notify {
  import opened Options
  import opened Text
  import opened Ordering

  /** One embed field; `inline` is absent when the field sets no such key. */
  datatype Field = Field(name: string, value: string, inline: Option<bool>)

  /** The parts of the payload that vary from one title to the next. */
  datatype Message = Message(fields: seq<Field>, image: Option<string>)

  const TitleName := "Title"
  const RatingName := "Rating (jav321.com)"
  const SourceName := "Source"
  const TagsName := "Tags"
  const TagSeparator := ", "

  /** Markdown `[text](url)`. */
  function MarkdownLink(text: string, url: string): string {
    "[" + text + "](" + url + ")"
  }

  /** `if rating:` — a rating is shown when it is present and non-empty. */
  predicate ShowsRating(rating: Option<string>) {
    rating.Some? && rating.value != ""
  }

  /** The optional last field: the Tags field exactly when there are tags. */
  ghost function TagsFields(tags: set<string>): seq<Field> {
    if tags != {} then [Field(TagsName, Join(SortedOf(tags), TagSeparator), Some(false))] else []
  }

  /** The field list, in order: Title, the optional Rating, Source and the
      optional Tags (the tags sorted, each once, comma-separated). */
  ghost function EmbedFields(title: string, url: string, tags: set<string>, rating: Option<string>): seq<Field> {
    [Field(TitleName, MarkdownLink(title, url), None)]
      + (if ShowsRating(rating) then [Field(RatingName, "\U{2B50} " + rating.value, Some(true))] else [])
      + [Field(SourceName, MarkdownLink("View on JavDB", url), None)]
      + TagsFields(tags)
  }

  /** `{"url": image_url} if image_url else None`. */
  function ImageOf(src: Option<string>): Option<string> {
    if src.Some? && src.value != "" then src else None
  }

  /** The last `append` of `send_discord_message`, made only when the list of
      tags is not empty. */
  method TagsField(tags: seq<string>) returns (field: seq<Field>)
    ensures field == TagsFields(Elems(tags))
  {
    if tags != [] {
      assert tags[0] in Elems(tags);
      var display := Sorted(Elems(tags));
      field := [Field(TagsName, Join(display, TagSeparator), Some(false))];
    } else {
      assert Elems(tags) == {};
      field := [];
    }
  }

  /** The successive `append`s of `send_discord_message`. The list of tags it
      is given may be in any order and may repeat a tag: only its set counts. */
  method BuildFields(title: string, url: string, tags: seq<string>, rating: Option<string>)
    returns (fields: seq<Field>)
    ensures fields == EmbedFields(title, url, Elems(tags), rating)
  {
    fields := [Field(TitleName, MarkdownLink(title, url), None)];
    if rating.Some? && rating.value != "" {
      fields := fields + [Field(RatingName, "\U{2B50} " + rating.value, Some(true))];
    }
    fields := fields + [Field(SourceName, MarkdownLink("View on JavDB", url), None)];
    var last := TagsField(tags);
    fields := fields + last;
  }

  /** The message for one title. */
  ghost function EmbedMessage(title: string, url: string, image: Option<string>, tags: set<string>, rating: Option<string>): Message {
    Message(EmbedFields(title, url, tags, rating), ImageOf(image))
  }

  /** `send_discord_message` up to the post: the message for one title,
      given its tag set (which it passes on as a list). */
  method ComposeMessage(title: string, url: string, image: Option<string>, tags: set<string>, rating: Option<string>)
    returns (message: Message)
    ensures message == EmbedMessage(title, url, image, tags, rating)
    ensures message.image.Some? <==> image.Some? && image.value != ""
    ensures message.image.Some? ==> message.image == image
  {
    var tagList := Sorted(tags);
    var fields := BuildFields(title, url, tagList, rating);
    message := Message(fields, ImageOf(image));
  }

  /** The layout of the field list: Title first, Rating second exactly when
      it is shown, Source always, Tags last exactly when there are tags, its
      value the sorted duplicate-free tags joined by ", ", and no other field. */
  lemma EmbedFieldsLayout(title: string, url: string, tags: set<string>, rating: Option<string>)
    ensures var f := EmbedFields(title, url, tags, rating);
      && |f| == 2 + (if ShowsRating(rating) then 1 else 0) + (if tags != {} then 1 else 0)
      && f[0] == Field(TitleName, MarkdownLink(title, url), None)
      && (ShowsRating(rating) <==> exists i :: 0 <= i < |f| && f[i].name == RatingName)
      && (ShowsRating(rating) ==> f[1] == Field(RatingName, "\U{2B50} " + rating.value, Some(true)))
      && (exists i :: 0 <= i < |f| && f[i].name == SourceName)
      && (tags != {} <==> f[|f| - 1].name == TagsName)
      && (forall i :: 0 <= i < |f| ==> f[i].name in {TitleName, RatingName, SourceName, TagsName})
  {
    var f := EmbedFields(title, url, tags, rating);
    var k := if ShowsRating(rating) then 2 else 1;
    assert f[k].name == SourceName;
    assert SourceName != TagsName by {
      assert SourceName[0] != TagsName[0];
    }
    assert RatingName != TitleName && RatingName != SourceName && RatingName != TagsName by {
      assert RatingName[0] != TitleName[0] && RatingName[0] != SourceName[0] && RatingName[0] != TagsName[0];
    }
    if ShowsRating(rating) {
      assert f[1].name == RatingName;
    }
  }

  /** The Tags value lists the tags in strictly increasing order, each once:
      for ANY strictly sorted listing of the tag set, it is that listing joined. */
  lemma TagsFieldSorted(title: string, url: string, tags: set<string>, rating: Option<string>, listing: seq<string>)
    requires tags != {}
    requires StrictlySorted(listing) && Elems(listing) == tags
    ensures var f := EmbedFields(title, url, tags, rating);
      f[|f| - 1] == Field(TagsName, Join(listing, TagSeparator), Some(false))
  {
    SortedUnique(listing, tags);
  }
}
