/** The per-page head tags (src/components/common/SEO.tsx): document title,
    description, keywords, robots, canonical link, Open Graph and Twitter
    card tags, each derived from the page's props with site-wide defaults. */
module Seo {

  import opened Wrappers
  import opened Text

  datatype OgType = Website | Article | Product {
    function Name(): (r: string) {
      match this
      case Website => "website"
      case Article => "article"
      case Product => "product"
    }
  }

  /** The component's props; every one is optional. */
  datatype SeoProps = SeoProps(
    title: Option<string>,
    description: Option<string>,
    keywords: Option<string>,
    author: Option<string>,
    canonicalUrl: Option<string>,
    ogImage: Option<string>,
    ogType: Option<OgType>,
    noindex: Option<bool>)

  const NoProps := SeoProps(None, None, None, None, None, None, None, None)

  const SiteUrl := "https://www.sparkleahs.com"
  const TitleSuffix := " | Sparkle"
  const DefaultTitle := "Sparkle Educational Institute - Transform Your Career"
  const DefaultDescription := "India's most trusted career acceleration platform. Learn from industry experts and get placed at top companies."
  const DefaultKeywords := "online learning, career programs, professional certification, data science, digital marketing, web development"
  const DefaultAuthor := "Sparkle Educational Institute"
  const DefaultOgImage := "/logo.jpg"
  const Robots := "noindex, nofollow"
  const TwitterCard := "summary_large_image"

  /** The tags the component renders; `robots` is present only for pages
      marked noindex. */
  datatype HeadTags = HeadTags(
    title: string,
    description: string,
    keywords: string,
    author: string,
    robots: Option<string>,
    canonical: string,
    ogTitle: string,
    ogDescription: string,
    ogType: string,
    ogUrl: string,
    ogImage: string,
    twitterCard: string,
    twitterTitle: string,
    twitterDescription: string,
    twitterImage: string)

  predicate EndsWith(s: string, suffix: string) {
    |suffix| <= |s| && s[|s| - |suffix|..] == suffix
  }

  /** A non-empty title gets the site suffix; no title, or an empty one, gives
      the site's default title. */
  function MetaTitle(title: Option<string>): (r: string)
    ensures title.Some? && title.value != "" ==> r == title.value + TitleSuffix && EndsWith(r, TitleSuffix)
    ensures title.None? || title.value == "" ==> r == DefaultTitle
  {
    if title.Some? && title.value != "" then
      var r := title.value + TitleSuffix;
      assert r[|r| - |TitleSuffix|..] == TitleSuffix;
      r
    else DefaultTitle
  }

  /** A page title never collides with the default title, and distinct page
      titles give distinct document titles. */
  lemma MetaTitleDistinguishes(a: Option<string>, b: Option<string>)
    ensures MetaTitle(a) == DefaultTitle <==> a.None? || a.value == ""
    ensures a.Some? && a.value != "" && b.Some? && b.value != "" && MetaTitle(a) == MetaTitle(b) ==> a == b
  {
    if a.Some? && a.value != "" {
      var r := MetaTitle(a);
      if b.Some? && b.value != "" && r == MetaTitle(b) {
        assert |a.value| == |b.value|;
        assert a.value == r[..|a.value|] == b.value;
      }
    }
  }

  /** The page URL: the canonical URL when one is given, else the site URL
      followed by the route's path. */
  function CurrentUrl(canonicalUrl: Option<string>, pathname: string): (r: string)
    ensures canonicalUrl.Some? && canonicalUrl.value != "" ==> r == canonicalUrl.value
    ensures canonicalUrl.None? || canonicalUrl.value == "" ==> r == SiteUrl + pathname && StartsWith(r, SiteUrl)
  {
    OrOpt(canonicalUrl, SiteUrl + pathname)
  }

  /** An image path starting with `http` is already absolute; any other is
      resolved against the site URL. */
  function ImageUrl(image: string): (r: string)
    ensures StartsWith(image, "http") ==> r == image
    ensures !StartsWith(image, "http") ==> r == SiteUrl + image
  {
    if StartsWith(image, "http") then image else SiteUrl + image
  }

  lemma StartsWithAppend(a: string, b: string, prefix: string)
    requires StartsWith(a, prefix)
    ensures StartsWith(a + b, prefix)
  {
    assert (a + b)[..|prefix|] == a[..|prefix|];
  }

  /** Every image URL the tags carry starts with `http`, and resolving an
      already resolved URL changes nothing. */
  lemma ImageUrlIsAbsolute(image: string)
    ensures StartsWith(ImageUrl(image), "http")
    ensures ImageUrl(ImageUrl(image)) == ImageUrl(image)
  {
    if !StartsWith(image, "http") {
      assert SiteUrl[..4] == "http";
      StartsWithAppend(SiteUrl, image, "http");
    }
  }

  /** The tags rendered for `props` on the route `pathname`. Description and
      keywords fall back to the defaults when absent or empty; the author and
      the type fall back only when absent, so an empty author renders empty. */
  function Render(props: SeoProps, pathname: string): (t: HeadTags)
    ensures t.title == MetaTitle(props.title)
    ensures t.ogTitle == t.title && t.twitterTitle == t.title
    ensures t.ogDescription == t.description && t.twitterDescription == t.description
    ensures t.description != "" && t.keywords != ""
    ensures props.description.Some? && props.description.value != "" ==> t.description == props.description.value
    ensures props.description.None? || props.description == Some("") ==> t.description == DefaultDescription
    ensures props.keywords.Some? && props.keywords.value != "" ==> t.keywords == props.keywords.value
    ensures props.keywords.None? || props.keywords == Some("") ==> t.keywords == DefaultKeywords
    ensures props.author.Some? ==> t.author == props.author.value
    ensures props.author.None? ==> t.author == DefaultAuthor
    ensures props.ogType.Some? ==> t.ogType == props.ogType.value.Name()
    ensures props.ogType.None? ==> t.ogType == "website"
    ensures t.ogUrl == t.canonical == CurrentUrl(props.canonicalUrl, pathname)
    ensures t.ogImage == t.twitterImage == ImageUrl(props.ogImage.GetOr(DefaultOgImage))
    ensures t.robots.Some? <==> props.noindex == Some(true)
    ensures t.robots.Some? ==> t.robots.value == Robots
    ensures t.twitterCard == TwitterCard
  {
    var title := MetaTitle(props.title);
    var description := OrOpt(props.description, DefaultDescription);
    var url := CurrentUrl(props.canonicalUrl, pathname);
    var image := ImageUrl(props.ogImage.GetOr(DefaultOgImage));
    HeadTags(
      title := title,
      description := description,
      keywords := OrOpt(props.keywords, DefaultKeywords),
      author := props.author.GetOr(DefaultAuthor),
      robots := if props.noindex.GetOr(false) then Some(Robots) else None,
      canonical := url,
      ogTitle := title,
      ogDescription := description,
      ogType := props.ogType.GetOr(Website).Name(),
      ogUrl := url,
      ogImage := image,
      twitterCard := TwitterCard,
      twitterTitle := title,
      twitterDescription := description,
      twitterImage := image)
  }

  /** A page with no props: the site defaults, the logo as its image, and
      its own route as its URL. */
  lemma DefaultPage(pathname: string)
    ensures Render(NoProps, pathname).title == DefaultTitle
    ensures Render(NoProps, pathname).canonical == SiteUrl + pathname
    ensures Render(NoProps, pathname).ogImage == SiteUrl + DefaultOgImage
    ensures Render(NoProps, pathname).robots.None?
  {
    assert DefaultOgImage[0] != 'h';
    assert !StartsWith(DefaultOgImage, "http");
  }
}
