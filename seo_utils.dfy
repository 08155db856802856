/**
 * The SEO helpers of `utils/seo.ts`: the mapping from a content-API record to
 * the page's SEO data, and the meta-tag list built from that data.
 */
module SeoUtils {
  import opened Js
  import opened SeoTags

  /** The `seo` component of a content record; every field may be missing. */
  datatype SeoComponent = SeoComponent(
    metaTitle: Option<string>,
    metaDescription: Option<string>,
    keywords: Option<string>,
    canonicalURL: Option<string>,
    ogType: Option<string>,
    twitterCard: Option<string>)

  datatype ShopImage = ShopImage(url: Option<string>)

  /** A record of the queried collection, with the fields the mapping reads. */
  datatype SeoRecord = SeoRecord(seo: Option<SeoComponent>, shopName: Option<string>, shopImg: Option<seq<ShopImage>>)

  /** What the content API's `find` call produced. */
  datatype SeoResponse =
    | Answered(data: Option<seq<SeoRecord>>)     // `{ data }` without an error
    | AnsweredError(message: Option<string>)     // `{ error: fetchError }`
    | Rejected(message: Option<string>)          // the call threw

  /** The value `fetchSeoData` resolves to, and what it leaves in the `error` state. */
  datatype SeoOutcome = SeoOutcome(data: Option<SeoData>, error: Option<string>)

  /** `content.seo?.field` reads every field of a missing component as undefined. */
  function SeoFields(seo: Option<SeoComponent>): SeoComponent
  {
    if seo.Some? then seo.value else SeoComponent(None, None, None, None, None, None)
  }

  /** `a || ''` and the like: a present string wins, otherwise the default. */
  function StrOr(a: Option<string>, default: string): (r: string)
    ensures Present(a) ==> r == a.value
    ensures !Present(a) ==> r == default
  {
    OrElse(a, default)
  }

  /** The object literal `fetchSeoData` builds from the first record. */
  function MapSeoRecord(content: SeoRecord): (r: SeoData)
    ensures r.title.Some? && r.description.Some? && r.keywords.Some? && r.canonical.Some?
    ensures Present(r.ogType) && Present(r.twitterCard)
    ensures Present(r.title) <==> Present(SeoFields(content.seo).metaTitle) || Present(content.shopName)
    ensures Present(SeoFields(content.seo).metaTitle) ==> r.title == SeoFields(content.seo).metaTitle
    ensures !Present(SeoFields(content.seo).metaTitle) && Present(content.shopName) ==> r.title == content.shopName
    ensures !Present(SeoFields(content.seo).ogType) ==> r.ogType == Some("website")
    ensures !Present(SeoFields(content.seo).twitterCard) ==> r.twitterCard == Some("summary_large_image")
    ensures r.image.Some? ==> content.shopImg.Some? && |content.shopImg.value| > 0 && r.image == content.shopImg.value[0].url
    ensures r.image == if content.shopImg.Some? && |content.shopImg.value| > 0 then content.shopImg.value[0].url else None
    ensures !Present(SeoFields(content.seo).metaTitle) && !Present(content.shopName) ==> r.title == Some("")
    ensures Present(SeoFields(content.seo).metaDescription) ==> r.description == SeoFields(content.seo).metaDescription
    ensures !Present(SeoFields(content.seo).metaDescription) ==> r.description == Some("")
    ensures Present(SeoFields(content.seo).keywords) ==> r.keywords == SeoFields(content.seo).keywords
    ensures !Present(SeoFields(content.seo).keywords) ==> r.keywords == Some("")
    ensures Present(SeoFields(content.seo).canonicalURL) ==> r.canonical == SeoFields(content.seo).canonicalURL
    ensures !Present(SeoFields(content.seo).canonicalURL) ==> r.canonical == Some("")
    ensures Present(SeoFields(content.seo).ogType) ==> r.ogType == SeoFields(content.seo).ogType
    ensures Present(SeoFields(content.seo).twitterCard) ==> r.twitterCard == SeoFields(content.seo).twitterCard
  {
    var seo := content.seo;
    SeoData(
      title := Some(StrOr(SeoFields(seo).metaTitle, StrOr(content.shopName, ""))),
      description := Some(StrOr(SeoFields(seo).metaDescription, "")),
      keywords := Some(StrOr(SeoFields(seo).keywords, "")),
      image := if content.shopImg.Some? && |content.shopImg.value| > 0 then content.shopImg.value[0].url else None,
      canonical := Some(StrOr(SeoFields(seo).canonicalURL, "")),
      ogType := Some(StrOr(SeoFields(seo).ogType, "website")),
      twitterCard := Some(StrOr(SeoFields(seo).twitterCard, "summary_large_image")))
  }

  /**
   * `fetchSeoData`: an error answer or a rejected call leaves a message in
   * `error` and resolves to null; no rows resolve to null with no error;
   * otherwise the first row is mapped.
   */
  function FetchSeoData(response: SeoResponse): (r: SeoOutcome)
    ensures r.error.Some? ==> r.data.None? && r.error.value != ""
    ensures r.data.Some? <==> response.Answered? && response.data.Some? && |response.data.value| > 0
    ensures r.data.Some? ==> r.data.value == MapSeoRecord(response.data.value[0])
    ensures r.error.Some? <==> !response.Answered?
    ensures response.AnsweredError? ==> r.error == Some(StrOr(response.message, "Failed to fetch SEO data"))
    ensures response.Rejected? ==> r.error == Some(StrOr(response.message, "An unknown error occurred"))
  {
    match response
    case AnsweredError(message) =>
      // The thrown Error carries a non-empty message, which the handler keeps.
      SeoOutcome(None, Some(StrOr(message, "Failed to fetch SEO data")))
    case Rejected(message) =>
      SeoOutcome(None, Some(StrOr(message, "An unknown error occurred")))
    case Answered(data) =>
      if data.None? || |data.value| == 0 then SeoOutcome(None, None)
      else SeoOutcome(Some(MapSeoRecord(data.value[0])), None)
  }

  /** The number of tags `generateMetaTags` emits for `d`. */
  lemma MetaTagsCount(d: SeoData, baseUrl: string)
    ensures |AllTags(MetaTags, d, baseUrl)|
         == 2 + 3 * Count(d.title) + 3 * Count(d.description) + Count(d.keywords) + Count(d.canonical) + 2 * Count(d.image)
  {
    assert |Collect(MetaTags, d, baseUrl, 1)| == |Collect(MetaTags, d, baseUrl, 0)| + Count(d.title);
    assert |Collect(MetaTags, d, baseUrl, 2)| == |Collect(MetaTags, d, baseUrl, 1)| + Count(d.description);
    assert |Collect(MetaTags, d, baseUrl, 3)| == |Collect(MetaTags, d, baseUrl, 2)| + Count(d.keywords);
    assert |Collect(MetaTags, d, baseUrl, 4)| == |Collect(MetaTags, d, baseUrl, 3)| + Count(d.canonical);
    assert |Collect(MetaTags, d, baseUrl, 5)| == |Collect(MetaTags, d, baseUrl, 4)| + Count(d.title);
    assert |Collect(MetaTags, d, baseUrl, 6)| == |Collect(MetaTags, d, baseUrl, 5)| + Count(d.description);
    assert |Collect(MetaTags, d, baseUrl, 7)| == |Collect(MetaTags, d, baseUrl, 6)| + 1;
    assert |Collect(MetaTags, d, baseUrl, 8)| == |Collect(MetaTags, d, baseUrl, 7)| + 0;
    assert |Collect(MetaTags, d, baseUrl, 9)| == |Collect(MetaTags, d, baseUrl, 8)| + Count(d.image);
    assert |Collect(MetaTags, d, baseUrl, 10)| == |Collect(MetaTags, d, baseUrl, 9)| + 1;
    assert |Collect(MetaTags, d, baseUrl, 11)| == |Collect(MetaTags, d, baseUrl, 10)| + Count(d.title);
    assert |Collect(MetaTags, d, baseUrl, 12)| == |Collect(MetaTags, d, baseUrl, 11)| + Count(d.description);
    assert |Collect(MetaTags, d, baseUrl, 13)| == |Collect(MetaTags, d, baseUrl, 12)| + Count(d.image);
  }

  /**
   * `generateMetaTags(seoData, baseUrl)`: nothing for a missing record,
   * otherwise the generator's tag table in rank order.
   */
  method GenerateMetaTags(seoData: Option<SeoData>, baseUrl: string) returns (tags: seq<Tag>)
    ensures seoData.None? ==> tags == []
    ensures seoData.Some? ==> tags == AllTags(MetaTags, seoData.value, baseUrl)
  {
    if seoData.None? {
      return [];
    }
    var d := seoData.value;
    tags := [];
    if Present(d.title) {
      tags := tags + [TitleTag(d.title.value)];
    }
    assert tags == Collect(MetaTags, d, baseUrl, 1);
    if Present(d.description) {
      tags := tags + [NameMeta(Description, d.description)];
    }
    assert tags == Collect(MetaTags, d, baseUrl, 2);
    if Present(d.keywords) {
      tags := tags + [NameMeta(Keywords, d.keywords)];
    }
    assert tags == Collect(MetaTags, d, baseUrl, 3);
    if Present(d.canonical) {
      tags := tags + [CanonicalLink(baseUrl + d.canonical.value)];
    }
    assert tags == Collect(MetaTags, d, baseUrl, 4);
    if Present(d.title) {
      tags := tags + [PropertyMeta(OgTitle, d.title)];
    }
    assert tags == Collect(MetaTags, d, baseUrl, 5);
    if Present(d.description) {
      tags := tags + [PropertyMeta(OgDescription, d.description)];
    }
    assert tags == Collect(MetaTags, d, baseUrl, 6);
    tags := tags + [PropertyMeta(OgType, d.ogType)];
    assert tags == Collect(MetaTags, d, baseUrl, 8);
    if Present(d.image) {
      tags := tags + [PropertyMeta(OgImage, Some(AbsoluteImage(d.image.value, baseUrl)))];
    }
    assert tags == Collect(MetaTags, d, baseUrl, 9);
    tags := tags + [NameMeta(TwitterCard, d.twitterCard)];
    assert tags == Collect(MetaTags, d, baseUrl, 10);
    if Present(d.title) {
      tags := tags + [NameMeta(TwitterTitle, d.title)];
    }
    assert tags == Collect(MetaTags, d, baseUrl, 11);
    if Present(d.description) {
      tags := tags + [NameMeta(TwitterDescription, d.description)];
    }
    assert tags == Collect(MetaTags, d, baseUrl, 12);
    if Present(d.image) {
      tags := tags + [NameMeta(TwitterImage, Some(AbsoluteImage(d.image.value, baseUrl)))];
    }
  }
}
