/**
 * The `<head>` tags of the generated index page
 * (src/utils/meta-generator.ts). `generateMetaTags` fills in defaults for
 * the missing options, pushes the fixed tags and the optional ones in a set
 * order, and joins them with a line break and four spaces of indentation.
 */
module Meta {
  import opened Optional
  import opened Text

  /** The options object; a field left undefined is `None`. */
  datatype MetaOptions = MetaOptions(
    title: string,
    description: string,
    keywords: Option<seq<string>>,
    author: Option<string>,
    ogType: Option<string>,
    ogImage: Option<string>,
    twitterCard: Option<string>,
    themeColor: Option<string>)

  /** The options after destructuring with defaults. */
  datatype Settings = Settings(
    title: string,
    description: string,
    keywords: seq<string>,
    author: string,
    ogType: string,
    ogImage: string,
    twitterCard: string,
    themeColor: string)

  const DefaultOgType := "website"
  const DefaultTwitterCard := "summary_large_image"
  const DefaultThemeColor := "#3b82f6"

  /**
   * The destructuring defaults: no keywords, no author, no image, a
   * "website" Open Graph type, a large-image Twitter card and the blue theme
   * colour. A supplied value is kept as it is, even when it is empty.
   */
  function WithDefaults(o: MetaOptions): (s: Settings)
    ensures s.title == o.title && s.description == o.description
    ensures o.keywords.None? ==> s.keywords == []
    ensures o.author.None? ==> s.author == ""
    ensures o.ogType.None? ==> s.ogType == DefaultOgType
    ensures o.ogImage.None? ==> s.ogImage == ""
    ensures o.twitterCard.None? ==> s.twitterCard == DefaultTwitterCard
    ensures o.themeColor.None? ==> s.themeColor == DefaultThemeColor
    ensures o.keywords.Some? ==> s.keywords == o.keywords.value
    ensures o.author.Some? ==> s.author == o.author.value
    ensures o.ogType.Some? ==> s.ogType == o.ogType.value
    ensures o.ogImage.Some? ==> s.ogImage == o.ogImage.value
    ensures o.twitterCard.Some? ==> s.twitterCard == o.twitterCard.value
    ensures o.themeColor.Some? ==> s.themeColor == o.themeColor.value
  {
    Settings(
      o.title,
      o.description,
      o.keywords.GetOr([]),
      o.author.GetOr(""),
      o.ogType.GetOr(DefaultOgType),
      o.ogImage.GetOr(""),
      o.twitterCard.GetOr(DefaultTwitterCard),
      o.themeColor.GetOr(DefaultThemeColor))
  }

  /** The tags the generator can emit. */
  datatype MetaTag =
    | Charset
    | Viewport
    | Compatibility
    | Title(title: string)
    | Description(description: string)
    | Keywords(content: string)
    | Author(name: string)
    | ThemeColor(color: string)
    | OgTitle(ogTitle: string)
    | OgDescription(ogDescription: string)
    | OgType(ogType: string)
    | OgImage(ogImage: string)
    | TwitterCard(card: string)
    | TwitterTitle(twitterTitle: string)
    | TwitterDescription(twitterDescription: string)
    | TwitterImage(twitterImage: string)

  /** The markup of one tag; values are interpolated without escaping. */
  function Render(t: MetaTag): string {
    match t
    case Charset => @"<meta charset=""UTF-8"">"
    case Viewport => @"<meta name=""viewport"" content=""width=device-width, initial-scale=1.0"">"
    case Compatibility => @"<meta http-equiv=""X-UA-Compatible"" content=""IE=edge"">"
    case Title(v) => "<title>" + v + "</title>"
    case Description(v) => @"<meta name=""description"" content=""" + v + @""">"
    case Keywords(v) => @"<meta name=""keywords"" content=""" + v + @""">"
    case Author(v) => @"<meta name=""author"" content=""" + v + @""">"
    case ThemeColor(v) => @"<meta name=""theme-color"" content=""" + v + @""">"
    case OgTitle(v) => @"<meta property=""og:title"" content=""" + v + @""">"
    case OgDescription(v) => @"<meta property=""og:description"" content=""" + v + @""">"
    case OgType(v) => @"<meta property=""og:type"" content=""" + v + @""">"
    case OgImage(v) => @"<meta property=""og:image"" content=""" + v + @""">"
    case TwitterCard(v) => @"<meta name=""twitter:card"" content=""" + v + @""">"
    case TwitterTitle(v) => @"<meta name=""twitter:title"" content=""" + v + @""">"
    case TwitterDescription(v) => @"<meta name=""twitter:description"" content=""" + v + @""">"
    case TwitterImage(v) => @"<meta name=""twitter:image"" content=""" + v + @""">"
  }

  function RenderAll(tags: seq<MetaTag>): (r: seq<string>)
    ensures |r| == |tags|
    ensures forall i :: 0 <= i < |tags| ==> r[i] == Render(tags[i])
  {
    seq(|tags|, i requires 0 <= i < |tags| => Render(tags[i]))
  }

  function Flag(b: bool): nat {
    if b then 1 else 0
  }

  /** The five tags every page starts with. */
  function LeadingTags(s: Settings): seq<MetaTag> {
    [Charset, Viewport, Compatibility, Title(s.title), Description(s.description)]
  }

  /** The tags up to the author tag: the five leading tags, then keywords and author when present. */
  function HeadTags(s: Settings): (tags: seq<MetaTag>)
    ensures |tags| == 5 + Flag(|s.keywords| > 0) + Flag(s.author != "")
    ensures tags[..5] == LeadingTags(s)
  {
    HeadTagsWith(s, Join(s.keywords, ", "))
  }

  /** The head, given the keywords already joined into `content`. */
  function HeadTagsWith(s: Settings, content: string): (tags: seq<MetaTag>)
    ensures |tags| == 5 + Flag(|s.keywords| > 0) + Flag(s.author != "")
    ensures tags[..5] == LeadingTags(s)
  {
    LeadingTags(s)
    + (if |s.keywords| > 0 then [Keywords(content)] else [])
    + (if s.author != "" then [Author(s.author)] else [])
  }

  /** What follows the author tag: the colour, the Open Graph and the Twitter tags. */
  function TrailingTags(s: Settings): (tags: seq<MetaTag>)
    ensures |tags| == 7 + 2 * Flag(s.ogImage != "")
  {
    [ThemeColor(s.themeColor)]
    + [OgTitle(s.title)]
    + [OgDescription(s.description)]
    + [OgType(s.ogType)]
    + (if s.ogImage != "" then [OgImage(s.ogImage)] else [])
    + [TwitterCard(s.twitterCard)]
    + [TwitterTitle(s.title)]
    + [TwitterDescription(s.description)]
    + (if s.ogImage != "" then [TwitterImage(s.ogImage)] else [])
  }

  /**
   * The tags in the order they are pushed: the five leading tags, the theme
   * colour, three Open Graph tags and three Twitter tags always; keywords,
   * author and the two image tags only when their value is non-empty.
   */
  function TagList(s: Settings): (tags: seq<MetaTag>)
    ensures |tags| == 12 + Flag(|s.keywords| > 0) + Flag(s.author != "") + 2 * Flag(s.ogImage != "")
    ensures tags[..5] == LeadingTags(s)
  {
    var head := HeadTags(s);
    assert (head + TrailingTags(s))[..5] == head[..5];
    head + TrailingTags(s)
  }

  /** The head holds the keywords and author tags exactly when they have values, and no image tag. */
  lemma {:induction false} HeadTagKinds(s: Settings)
    ensures Keywords(Join(s.keywords, ", ")) in HeadTags(s) <==> |s.keywords| > 0
    ensures forall t | t in HeadTags(s) && t.Keywords? :: t.content == Join(s.keywords, ", ")
    ensures Author(s.author) in HeadTags(s) <==> s.author != ""
    ensures forall t | t in HeadTags(s) && t.Author? :: t.name == s.author
    ensures forall t | t in HeadTags(s) :: !t.OgImage? && !t.TwitterImage?
  {
    HeadWithKinds(s, Join(s.keywords, ", "));
  }

  /** The same facts for any joined keywords text. */
  lemma {:induction false} HeadWithKinds(s: Settings, content: string)
    ensures Keywords(content) in HeadTagsWith(s, content) <==> |s.keywords| > 0
    ensures forall t | t in HeadTagsWith(s, content) && t.Keywords? :: t.content == content
    ensures Author(s.author) in HeadTagsWith(s, content) <==> s.author != ""
    ensures forall t | t in HeadTagsWith(s, content) && t.Author? :: t.name == s.author
    ensures forall t | t in HeadTagsWith(s, content) :: !t.OgImage? && !t.TwitterImage?
  {
    var h := HeadTagsWith(s, content);
    var lead := [Charset, Viewport, Compatibility, Title(s.title), Description(s.description)];
    if |s.keywords| > 0 && s.author != "" {
      assert h == lead + [Keywords(content), Author(s.author)];
    } else if |s.keywords| > 0 {
      assert h == lead + [Keywords(content)];
    } else if s.author != "" {
      assert h == lead + [Author(s.author)];
    } else {
      assert h == lead;
    }
  }

  /** The trailing tags hold neither a keywords nor an author tag, and both image tags exactly when there is an image. */
  lemma {:induction false} TrailingTagKinds(s: Settings)
    ensures forall t | t in TrailingTags(s) :: !t.Keywords? && !t.Author?
    ensures OgImage(s.ogImage) in TrailingTags(s) <==> s.ogImage != ""
    ensures TwitterImage(s.ogImage) in TrailingTags(s) <==> s.ogImage != ""
    ensures forall t | t in TrailingTags(s) && (t.OgImage? || t.TwitterImage?) :: s.ogImage != ""
  {
    var t := TrailingTags(s);
    if s.ogImage != "" {
      assert t == [ThemeColor(s.themeColor), OgTitle(s.title), OgDescription(s.description),
                   OgType(s.ogType), OgImage(s.ogImage), TwitterCard(s.twitterCard), TwitterTitle(s.title),
                   TwitterDescription(s.description), TwitterImage(s.ogImage)];
    } else {
      assert t == [ThemeColor(s.themeColor), OgTitle(s.title), OgDescription(s.description),
                   OgType(s.ogType), TwitterCard(s.twitterCard), TwitterTitle(s.title),
                   TwitterDescription(s.description)];
    }
  }

  /** The keywords tag is there exactly when there are keywords, and lists them joined by ", ". */
  lemma {:induction false} KeywordsTag(s: Settings)
    ensures Keywords(Join(s.keywords, ", ")) in TagList(s) <==> |s.keywords| > 0
    ensures forall t | t in TagList(s) && t.Keywords? :: t.content == Join(s.keywords, ", ")
  {
    HeadTagKinds(s);
    TrailingTagKinds(s);
  }

  /** The author tag is there exactly when the author is non-empty. */
  lemma {:induction false} AuthorTag(s: Settings)
    ensures Author(s.author) in TagList(s) <==> s.author != ""
    ensures forall t | t in TagList(s) && t.Author? :: t.name == s.author
  {
    HeadTagKinds(s);
    TrailingTagKinds(s);
  }

  /** Both image tags are there exactly when the image is non-empty. */
  lemma {:induction false} ImageTags(s: Settings)
    ensures OgImage(s.ogImage) in TagList(s) <==> s.ogImage != ""
    ensures TwitterImage(s.ogImage) in TagList(s) <==> s.ogImage != ""
    ensures forall t | t in TagList(s) && (t.OgImage? || t.TwitterImage?) :: s.ogImage != ""
  {
    HeadTagKinds(s);
    TrailingTagKinds(s);
  }

  /** The separator between tags: a line break and the head's indentation. */
  const TagSeparator := "\n    "

  /** The text `generateMetaTags` returns: the rendered tags joined with the separator. */
  function MetaTagsHtml(options: MetaOptions): string {
    Join(RenderAll(TagList(WithDefaults(options))), TagSeparator)
  }

  /** The first pushes of `generateMetaTags`: the leading tags, then keywords and author when present. */
  method PushHeadTags(s: Settings) returns (tags: seq<MetaTag>)
    ensures tags == HeadTags(s)
    ensures tags[0] == Charset
  {
    tags := [Charset, Viewport, Compatibility, Title(s.title), Description(s.description)];
    if |s.keywords| > 0 {
      tags := tags + [Keywords(Join(s.keywords, ", "))];
    }
    if s.author != "" {
      tags := tags + [Author(s.author)];
    }
  }

  /** The remaining pushes, appended to `head`: colour, Open Graph and Twitter tags. */
  method PushTrailingTags(s: Settings, head: seq<MetaTag>) returns (tags: seq<MetaTag>)
    ensures tags == head + TrailingTags(s)
  {
    tags := head + [ThemeColor(s.themeColor)];
    tags := tags + [OgTitle(s.title)];
    tags := tags + [OgDescription(s.description)];
    tags := tags + [OgType(s.ogType)];
    if s.ogImage != "" {
      tags := tags + [OgImage(s.ogImage)];
    }
    tags := tags + [TwitterCard(s.twitterCard)];
    tags := tags + [TwitterTitle(s.title)];
    tags := tags + [TwitterDescription(s.description)];
    if s.ogImage != "" {
      tags := tags + [TwitterImage(s.ogImage)];
    }
  }

  /**
   * `generateMetaTags`: the tag list, built push by push, rendered and
   * joined with the separator. The output starts with the charset tag.
   */
  method GenerateMetaTags(options: MetaOptions) returns (html: string)
    ensures html == MetaTagsHtml(options)
    ensures IsPrefix(Render(Charset), html)
  {
    var s := WithDefaults(options);
    var head := PushHeadTags(s);
    var tags := PushTrailingTags(s, head);
    assert tags == TagList(s);
    assert tags[0] == Charset;
    html := Join(RenderAll(tags), TagSeparator);
  }

  /** The favicon links after the opening `<link` of the first one. */
  const FaviconLinksRest :=
    @" rel=""icon"" type=""image/x-icon"" href=""/favicon.ico"">
    <link rel=""icon"" type=""image/png"" sizes=""32x32"" href=""/favicon-32x32.png"">
    <link rel=""icon"" type=""image/png"" sizes=""16x16"" href=""/favicon-16x16.png"">
    <link rel=""apple-touch-icon"" sizes=""180x180"" href=""/apple-touch-icon.png"">"

  /** `generateFaviconLinks()`: four fixed icon links, one per line. */
  function FaviconLinks(): (r: string)
    ensures IsPrefix("<link", r)
  {
    "<link" + FaviconLinksRest
  }
}
