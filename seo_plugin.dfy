/**
 * The SEO plugin of `plugins/seo.ts`: `generateSeoTags`, which builds the
 * same tag list as `generateMetaTags` plus an `og:url` entry and defaults for
 * og:type and twitter:card, and `setSeo`, which splits a tag list into the
 * head's meta entries, title and links. The configured site URL and the
 * current route's path are parameters.
 */
module SeoPlugin {
  import opened Js
  import opened SeoTags
  import Lists

  /**
   * `generateSeoTags(seoData)` with the site URL `baseUrl` and the route
   * path `fullPath`: nothing for a missing record, otherwise the plugin's tag
   * table in rank order.
   */
  method GenerateSeoTags(seoData: Option<SeoData>, baseUrl: string, fullPath: string) returns (tags: seq<Tag>)
    ensures seoData.None? ==> tags == []
    ensures seoData.Some? ==> tags == AllTags(SeoTagsOn(fullPath), seoData.value, baseUrl)
  {
    if seoData.None? {
      return [];
    }
    var d := seoData.value;
    ghost var g := SeoTagsOn(fullPath);
    tags := [];
    if Present(d.title) {
      tags := tags + [TitleTag(d.title.value)];
    }
    assert tags == Collect(g, d, baseUrl, 1);
    if Present(d.description) {
      tags := tags + [NameMeta(Description, d.description)];
    }
    assert tags == Collect(g, d, baseUrl, 2);
    if Present(d.keywords) {
      tags := tags + [NameMeta(Keywords, d.keywords)];
    }
    assert tags == Collect(g, d, baseUrl, 3);
    if Present(d.canonical) {
      tags := tags + [CanonicalLink(baseUrl + d.canonical.value)];
    }
    assert tags == Collect(g, d, baseUrl, 4);
    if Present(d.title) {
      tags := tags + [PropertyMeta(OgTitle, d.title)];
    }
    assert tags == Collect(g, d, baseUrl, 5);
    if Present(d.description) {
      tags := tags + [PropertyMeta(OgDescription, d.description)];
    }
    assert tags == Collect(g, d, baseUrl, 6);
    tags := tags + [PropertyMeta(OgType, Some(OrElse(d.ogType, "website")))];
    assert tags == Collect(g, d, baseUrl, 7);
    if baseUrl != "" {
      tags := tags + [PropertyMeta(OgUrl, Some(baseUrl + fullPath))];
    }
    assert tags == Collect(g, d, baseUrl, 8);
    if Present(d.image) {
      tags := tags + [PropertyMeta(OgImage, Some(AbsoluteImage(d.image.value, baseUrl)))];
    }
    assert tags == Collect(g, d, baseUrl, 9);
    tags := tags + [NameMeta(TwitterCard, Some(OrElse(d.twitterCard, "summary_large_image")))];
    assert tags == Collect(g, d, baseUrl, 10);
    if Present(d.title) {
      tags := tags + [NameMeta(TwitterTitle, d.title)];
    }
    assert tags == Collect(g, d, baseUrl, 11);
    if Present(d.description) {
      tags := tags + [NameMeta(TwitterDescription, d.description)];
    }
    assert tags == Collect(g, d, baseUrl, 12);
    if Present(d.image) {
      tags := tags + [NameMeta(TwitterImage, Some(AbsoluteImage(d.image.value, baseUrl)))];
    }
  }

  /** The plugin emits one tag more than `generateMetaTags` when a site URL is configured: og:url. */
  lemma SeoTagsCount(d: SeoData, baseUrl: string, fullPath: string)
    ensures |AllTags(SeoTagsOn(fullPath), d, baseUrl)|
         == 2 + 3 * Count(d.title) + 3 * Count(d.description) + Count(d.keywords) + Count(d.canonical)
            + 2 * Count(d.image) + (if baseUrl != "" then 1 else 0)
  {
    var g := SeoTagsOn(fullPath);
    assert |Collect(g, d, baseUrl, 1)| == |Collect(g, d, baseUrl, 0)| + Count(d.title);
    assert |Collect(g, d, baseUrl, 2)| == |Collect(g, d, baseUrl, 1)| + Count(d.description);
    assert |Collect(g, d, baseUrl, 3)| == |Collect(g, d, baseUrl, 2)| + Count(d.keywords);
    assert |Collect(g, d, baseUrl, 4)| == |Collect(g, d, baseUrl, 3)| + Count(d.canonical);
    assert |Collect(g, d, baseUrl, 5)| == |Collect(g, d, baseUrl, 4)| + Count(d.title);
    assert |Collect(g, d, baseUrl, 6)| == |Collect(g, d, baseUrl, 5)| + Count(d.description);
    assert |Collect(g, d, baseUrl, 7)| == |Collect(g, d, baseUrl, 6)| + 1;
    assert |Collect(g, d, baseUrl, 8)| == |Collect(g, d, baseUrl, 7)| + (if baseUrl != "" then 1 else 0);
    assert |Collect(g, d, baseUrl, 9)| == |Collect(g, d, baseUrl, 8)| + Count(d.image);
    assert |Collect(g, d, baseUrl, 10)| == |Collect(g, d, baseUrl, 9)| + 1;
    assert |Collect(g, d, baseUrl, 11)| == |Collect(g, d, baseUrl, 10)| + Count(d.title);
    assert |Collect(g, d, baseUrl, 12)| == |Collect(g, d, baseUrl, 11)| + Count(d.description);
    assert |Collect(g, d, baseUrl, 13)| == |Collect(g, d, baseUrl, 12)| + Count(d.image);
  }

  /** og:type falls back to 'website' and twitter:card to 'summary_large_image'. */
  lemma SeoTagsDefaults(d: SeoData, baseUrl: string, fullPath: string)
    ensures !Present(d.ogType) ==> PropertyMeta(OgType, Some("website")) in AllTags(SeoTagsOn(fullPath), d, baseUrl)
    ensures !Present(d.twitterCard) ==> NameMeta(TwitterCard, Some("summary_large_image")) in AllTags(SeoTagsOn(fullPath), d, baseUrl)
  {
    AllTagsRanked(SeoTagsOn(fullPath), d, baseUrl);
  }

  /**
   * With a site URL, `og:url` is the site URL followed by the route path and
   * comes right after `og:type`; without one there is no `og:url`.
   */
  lemma {:induction false} OgUrlAfterOgType(d: SeoData, baseUrl: string, fullPath: string)
    ensures var tags := AllTags(SeoTagsOn(fullPath), d, baseUrl);
      baseUrl != "" ==> exists i :: 0 <= i < |tags| - 1 && Rank(tags[i]) == 6
                                    && tags[i + 1] == PropertyMeta(OgUrl, Some(baseUrl + fullPath))
    ensures var tags := AllTags(SeoTagsOn(fullPath), d, baseUrl);
      baseUrl == "" ==> forall i :: 0 <= i < |tags| ==> Rank(tags[i]) != 7
  {
    var g := SeoTagsOn(fullPath);
    var tags := AllTags(g, d, baseUrl);
    AllTagsRanked(g, d, baseUrl);
    if baseUrl != "" {
      var ogType := Slot(g, d, baseUrl, 6).value;
      var ogUrl := PropertyMeta(OgUrl, Some(baseUrl + fullPath));
      assert ogType in tags && ogUrl in tags;
      var i :| 0 <= i < |tags| && tags[i] == ogType;
      var j :| 0 <= j < |tags| && tags[j] == ogUrl;
      assert i < j;
      // Nothing ranks strictly between og:type and og:url.
      assert Rank(tags[i + 1]) == 7 by {
        assert Rank(tags[i]) < Rank(tags[i + 1]);
      }
      assert tags[i + 1] in tags;
    } else {
      forall i | 0 <= i < |tags|
        ensures Rank(tags[i]) != 7
      {
        assert tags[i] in tags;
      }
    }
  }

  /**
   * With no site URL and og:type and twitter:card given, the plugin's list
   * equals `generateMetaTags`'s element for element.
   */
  lemma SeoTagsMatchMetaTags(d: SeoData, fullPath: string)
    requires Present(d.ogType) && Present(d.twitterCard)
    ensures AllTags(SeoTagsOn(fullPath), d, "") == AllTags(MetaTags, d, "")
  {
    CollectSameSlots(SeoTagsOn(fullPath), MetaTags, d, "", 13);
  }

  /** The argument of `useHead` that `setSeo` builds. */
  datatype HeadConfig = HeadConfig(meta: seq<Tag>, title: string, link: seq<Tag>)

  /** `tag.name || tag.property`. */
  predicate IsMeta(t: Tag)
  {
    t.NameMeta? || t.PropertyMeta?
  }

  /** `tag.rel`. */
  predicate IsLink(t: Tag)
  {
    t.CanonicalLink?
  }

  /** `metaTags.find(tag => tag.title)?.title || ''`: the first non-empty title, or ''. */
  function FirstTitle(tags: seq<Tag>): (r: string)
    ensures r != "" ==> TitleTag(r) in tags
    ensures r == "" <==> forall i :: 0 <= i < |tags| && tags[i].TitleTag? ==> tags[i].title == ""
    ensures r != "" ==>
      exists i :: 0 <= i < |tags| && tags[i] == TitleTag(r) &&
        forall j :: 0 <= j < i && tags[j].TitleTag? ==> tags[j].title == ""
  {
    if tags == [] then ""
    else if tags[0].TitleTag? && tags[0].title != "" then tags[0].title
    else
      var r := FirstTitle(tags[1..]);
      if r == "" then r
      else
        var i :|
          0 <= i < |tags[1..]| && tags[1..][i] == TitleTag(r) &&
            forall j :: 0 <= j < i && tags[1..][j].TitleTag? ==> tags[1..][j].title == "";
        assert tags[i + 1] == TitleTag(r);
        r
  }

  /** `setSeo(metaTags)`: the meta entries, the title and the link entries handed to `useHead`. */
  function SetSeo(tags: seq<Tag>): (h: HeadConfig)
    ensures forall t :: t in h.meta <==> t in tags && IsMeta(t)
    ensures forall t :: t in h.link <==> t in tags && IsLink(t)
  {
    Lists.FilterMembers(tags, IsMeta);
    Lists.FilterMembers(tags, IsLink);
    HeadConfig(Lists.Filter(tags, IsMeta), FirstTitle(tags), Lists.Filter(tags, IsLink))
  }

  /** Every entry goes to exactly one place: meta, link, or (as a `{ title }` entry) to neither. */
  lemma {:induction false} SetSeoPartition(tags: seq<Tag>)
    ensures |SetSeo(tags).meta| + |SetSeo(tags).link| + |Lists.Filter(tags, (t: Tag) => t.TitleTag?)| == |tags|
    ensures forall t: Tag :: t.TitleTag? ==> t !in SetSeo(tags).meta && t !in SetSeo(tags).link
  {
    if tags != [] {
      SetSeoPartition(tags[1..]);
    }
  }

  /** For a generated list, the head's title is the page title when there is one, and '' otherwise. */
  lemma SetSeoTitle(g: Generator, d: SeoData, baseUrl: string)
    ensures SetSeo(AllTags(g, d, baseUrl)).title == if Present(d.title) then d.title.value else ""
  {
    var tags := AllTags(g, d, baseUrl);
    AllTagsRanked(g, d, baseUrl);
    if Present(d.title) {
      assert TitleTag(d.title.value) in tags;
      var t := FirstTitle(tags);
      assert TitleTag(t) in tags;
    } else {
      forall i | 0 <= i < |tags|
        ensures !tags[i].TitleTag?
      {
        assert tags[i] in tags;
      }
    }
  }
}
