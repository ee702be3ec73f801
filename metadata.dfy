/**
 * The site configuration and the page metadata builder of
 * src/config/metadata.ts.
 *
 * Optional arguments are `Option`s.  JavaScript's `x ? a : b` and `x || y`
 * test truthiness, so an empty string behaves exactly like an absent one;
 * `Truthy` states that.
 */
module SiteMetadata {
  import opened Common

  // ---------------------------------------------------------------------------
  // siteConfig
  // ---------------------------------------------------------------------------

  const SiteName := "FaviconConverter.com"
  const SiteDescription := "Free online tool to convert images to favicon formats. Create ICO, PNG, and Apple Touch icons instantly."
  const SiteUrl := "https://faviconconverter.com"
  const SiteOgImage := "/images/og-image.jpg"

  /** One entry of `siteConfig.features`. */
  datatype Feature = Feature(title: string, description: string, path: string)

  const ImageConverter := Feature(
    "Image to Favicon Converter",
    "Convert any image to favicon formats. Support for ICO, PNG, and Apple Touch icons. Free online tool.",
    "/")
  const CodePlatform := Feature(
    "Code Platform",
    "Developer tools for favicon generation. API access, SDK integration, and automation tools.",
    "/code-platform")
  const NocodePlatform := Feature(
    "No-Code Platform",
    "Visual favicon editor for designers. Drag-and-drop interface, real-time preview, and batch processing.",
    "/nocode-platform")

  const Features: seq<Feature> := [ImageConverter, CodePlatform, NocodePlatform]

  // ---------------------------------------------------------------------------
  // Arguments and result
  // ---------------------------------------------------------------------------

  /** The Open Graph object types `type` may take. */
  datatype OgType =
    | Article | Website | Book | Profile
    | MusicSong | MusicAlbum | MusicPlaylist | MusicRadioStation
    | VideoMovie | VideoEpisode | VideoTvShow | VideoOther

  /** `MetadataProps`: every field may be left out. */
  datatype MetadataProps = MetadataProps(
    title: Option<string>,
    description: Option<string>,
    image: Option<string>,
    url: Option<string>,
    ogType: Option<OgType>,
    keywords: Option<seq<string>>,
    canonical: Option<string>)

  /** The argument `{}` that constructMetadata defaults to. */
  const NoProps := MetadataProps(None, None, None, None, None, None, None)

  datatype GoogleBot = GoogleBot(index: bool, follow: bool, maxVideoPreview: int, maxImagePreview: string, maxSnippet: int)
  datatype Robots = Robots(index: bool, follow: bool, googleBot: GoogleBot)
  datatype OgImage = OgImage(url: string, width: nat, height: nat, alt: string)
  datatype OpenGraph = OpenGraph(title: string, description: string, url: string, siteName: string, ogType: OgType, images: seq<OgImage>)
  datatype Twitter = Twitter(card: string, title: string, description: string, images: seq<string>)
  datatype Icons = Icons(icon: string, shortcut: string, apple: string)
  datatype Alternates = Alternates(canonical: string)

  /** The object constructMetadata returns; `metadataBase` is the text the URL is built from. */
  datatype Metadata = Metadata(
    title: string,
    description: string,
    keywords: string,
    robots: Robots,
    canonical: string,
    openGraph: OpenGraph,
    twitter: Twitter,
    icons: Icons,
    manifest: string,
    metadataBase: string,
    alternates: Alternates)

  const DefaultKeywords: seq<string> := [
    "favicon converter",
    "ico converter",
    "favicon generator",
    "apple touch icon",
    "favicon maker",
    "online favicon tool"
  ]

  const KeywordSeparator := ", "
  const TitleSeparator := " | "

  const RobotsPolicy := Robots(true, true, GoogleBot(true, true, -1, "large", -1))
  const SiteIcons := Icons("/favicon.ico", "/favicon-16x16.png", "/apple-touch-icon.png")
  const ManifestPath := "/site.webmanifest"
  const TwitterCard := "summary_large_image"
  const OgImageWidth: nat := 1200
  const OgImageHeight: nat := 630

  // ---------------------------------------------------------------------------
  // JavaScript helpers
  // ---------------------------------------------------------------------------

  /** A string value JavaScript treats as true: present and not empty. */
  predicate Truthy(s: Option<string>) {
    s.Some? && s.value != ""
  }

  /** `s || fallback`. */
  function OrElse(s: Option<string>, fallback: string): string {
    if Truthy(s) then s.value else fallback
  }

  /** `Array.prototype.join(sep)`. */
  function Join(xs: seq<string>, sep: string): string
    decreases |xs|
  {
    if |xs| == 0 then ""
    else if |xs| == 1 then xs[0]
    else Join(xs[..|xs| - 1], sep) + sep + xs[|xs| - 1]
  }

  /** `title ? `${title} | ${siteConfig.name}` : siteConfig.name`. */
  function PageTitle(title: Option<string>): string {
    if Truthy(title) then title.value + TitleSeparator + SiteName else SiteName
  }

  // ---------------------------------------------------------------------------
  // constructMetadata
  // ---------------------------------------------------------------------------

  function ConstructMetadata(props: MetadataProps): (m: Metadata)
    // the three titles agree and carry the site name
    ensures m.title == m.openGraph.title == m.twitter.title
    ensures Truthy(props.title) ==> m.title == props.title.value + " | " + SiteName
    ensures !Truthy(props.title) ==> m.title == SiteName
    // the three descriptions agree
    ensures m.description == m.openGraph.description == m.twitter.description
    ensures m.description == if Truthy(props.description) then props.description.value else SiteDescription
    // canonical: the first non-empty of canonical, url and the site URL, in both places
    ensures m.canonical == m.alternates.canonical
    ensures Truthy(props.canonical) ==> m.canonical == props.canonical.value
    ensures !Truthy(props.canonical) && Truthy(props.url) ==> m.canonical == props.url.value
    ensures !Truthy(props.canonical) && !Truthy(props.url) ==> m.canonical == SiteUrl
    // Open Graph: url, one image of 1200x630 described by the bare title
    ensures m.openGraph.url == if Truthy(props.url) then props.url.value else SiteUrl
    ensures |m.openGraph.images| == 1 && |m.twitter.images| == 1
    ensures m.openGraph.images[0].url == m.twitter.images[0]
      == if Truthy(props.image) then props.image.value else SiteOgImage
    ensures m.openGraph.images[0].width == 1200 && m.openGraph.images[0].height == 630
    ensures m.openGraph.images[0].alt == if Truthy(props.title) then props.title.value else SiteName
    ensures m.openGraph.ogType == if props.ogType.Some? then props.ogType.value else Website
    ensures m.openGraph.siteName == SiteName
  {
    var title := PageTitle(props.title);
    var description := OrElse(props.description, SiteDescription);
    var keywords := if props.keywords.Some? then props.keywords.value else [];
    var canonical := OrElse(props.canonical, OrElse(props.url, SiteUrl));
    var image := OrElse(props.image, SiteOgImage);
    Metadata(
      title,
      description,
      Join(DefaultKeywords + keywords, KeywordSeparator),
      RobotsPolicy,
      canonical,
      OpenGraph(
        title,
        description,
        OrElse(props.url, SiteUrl),
        SiteName,
        if props.ogType.Some? then props.ogType.value else Website,
        [OgImage(image, OgImageWidth, OgImageHeight, OrElse(props.title, SiteName))]),
      Twitter(TwitterCard, title, description, [image]),
      SiteIcons,
      ManifestPath,
      SiteUrl,
      Alternates(canonical))
  }

  // ---------------------------------------------------------------------------
  // Properties
  // ---------------------------------------------------------------------------

  /** Joining two non-empty lists: the two joins with one separator between. */
  lemma {:induction false} JoinAppend(xs: seq<string>, ys: seq<string>, sep: string)
    requires xs != [] && ys != []
    ensures Join(xs + ys, sep) == Join(xs, sep) + sep + Join(ys, sep)
    decreases |ys|
  {
    var zs := xs + ys;
    if |ys| == 1 {
      assert zs[..|zs| - 1] == xs;
    } else {
      var front := ys[..|ys| - 1];
      assert zs[..|zs| - 1] == xs + front;
      JoinAppend(xs, front, sep);
    }
  }

  /** The keywords are the six defaults, then the caller's, joined with ", ". */
  lemma KeywordsExtendDefaults(props: MetadataProps)
    ensures props.keywords.None? || props.keywords.value == [] ==>
      ConstructMetadata(props).keywords == Join(DefaultKeywords, ", ")
    ensures props.keywords.Some? && props.keywords.value != [] ==>
      ConstructMetadata(props).keywords == Join(DefaultKeywords, ", ") + ", " + Join(props.keywords.value, ", ")
  {
    if props.keywords.Some? && props.keywords.value != [] {
      JoinAppend(DefaultKeywords, props.keywords.value, KeywordSeparator);
    } else {
      var ks := if props.keywords.Some? then props.keywords.value else [];
      assert DefaultKeywords + ks == DefaultKeywords;
    }
  }

  /** An empty string argument, or an empty keyword list, is the same as leaving it out. */
  function Normalize(props: MetadataProps): MetadataProps {
    MetadataProps(
      if Truthy(props.title) then props.title else None,
      if Truthy(props.description) then props.description else None,
      if Truthy(props.image) then props.image else None,
      if Truthy(props.url) then props.url else None,
      props.ogType,
      if props.keywords.Some? && props.keywords.value != [] then props.keywords else None,
      if Truthy(props.canonical) then props.canonical else None)
  }

  lemma EmptyStringIsAbsent(props: MetadataProps)
    ensures ConstructMetadata(Normalize(props)) == ConstructMetadata(props)
  {
    KeywordsExtendDefaults(props);
    KeywordsExtendDefaults(Normalize(props));
  }

  /** The Open Graph and Twitter objects never depend on the `canonical` argument. */
  lemma OpenGraphIgnoresCanonical(props: MetadataProps, canonical: Option<string>)
    ensures ConstructMetadata(props.(canonical := canonical)).openGraph == ConstructMetadata(props).openGraph
    ensures ConstructMetadata(props.(canonical := canonical)).twitter == ConstructMetadata(props).twitter
  {
  }

  /** robots, icons, manifest, metadataBase, the Twitter card and the site name do not depend on the arguments. */
  lemma ConstantFields(p: MetadataProps, q: MetadataProps)
    ensures var m, n := ConstructMetadata(p), ConstructMetadata(q);
      && m.robots == n.robots == Robots(true, true, GoogleBot(true, true, -1, "large", -1))
      && m.icons == n.icons == Icons("/favicon.ico", "/favicon-16x16.png", "/apple-touch-icon.png")
      && m.manifest == n.manifest == "/site.webmanifest"
      && m.metadataBase == n.metadataBase == SiteUrl
      && m.twitter.card == n.twitter.card == "summary_large_image"
      && m.openGraph.siteName == n.openGraph.siteName
  {
  }
}
