/**
 * The meta-tag vocabulary shared by the two SEO generators
 * (`generateMetaTags` in `utils/seo.ts` and `generateSeoTags` in
 * `plugins/seo.ts`): the page data they read, the tags they emit, and the
 * fixed order in which they emit them, as a table from rank to tag.
 */
module SeoTags {
  import opened Js

  /**
   * The SEO data of a page. `fetchSeoData` fills every field; a caller may
   * also hand the generators a record with fields missing.
   */
  datatype SeoData = SeoData(
    title: Option<string>,
    description: Option<string>,
    keywords: Option<string>,
    image: Option<string>,
    canonical: Option<string>,
    ogType: Option<string>,
    twitterCard: Option<string>)

  /** The `name` attributes the generators use. */
  datatype MetaName = Description | Keywords | TwitterCard | TwitterTitle | TwitterDescription | TwitterImage

  /** The Open Graph `property` attributes the generators use. */
  datatype OgProperty = OgTitle | OgDescription | OgType | OgUrl | OgImage

  function NameText(n: MetaName): string
  {
    match n
    case Description => "description"
    case Keywords => "keywords"
    case TwitterCard => "twitter:card"
    case TwitterTitle => "twitter:title"
    case TwitterDescription => "twitter:description"
    case TwitterImage => "twitter:image"
  }

  function PropertyText(p: OgProperty): string
  {
    match p
    case OgTitle => "og:title"
    case OgDescription => "og:description"
    case OgType => "og:type"
    case OgUrl => "og:url"
    case OgImage => "og:image"
  }

  /**
   * One entry of a meta-tag list: `{ title }`, `{ name, content }`,
   * `{ property, content }` or `{ rel: 'canonical', href }`.
   */
  datatype Tag =
    | TitleTag(title: string)
    | NameMeta(name: MetaName, content: Option<string>)
    | PropertyMeta(property: OgProperty, content: Option<string>)
    | CanonicalLink(href: string)

  /**
   * The position of a tag in the fixed order both generators emit:
   * title, description, keywords, canonical, og:title, og:description,
   * og:type, og:url, og:image, twitter:card, twitter:title,
   * twitter:description, twitter:image.
   */
  function Rank(t: Tag): (r: nat)
    ensures r < 13
  {
    match t
    case TitleTag(_) => 0
    case NameMeta(Description, _) => 1
    case NameMeta(Keywords, _) => 2
    case CanonicalLink(_) => 3
    case PropertyMeta(OgTitle, _) => 4
    case PropertyMeta(OgDescription, _) => 5
    case PropertyMeta(OgType, _) => 6
    case PropertyMeta(OgUrl, _) => 7
    case PropertyMeta(OgImage, _) => 8
    case NameMeta(TwitterCard, _) => 9
    case NameMeta(TwitterTitle, _) => 10
    case NameMeta(TwitterDescription, _) => 11
    case NameMeta(TwitterImage, _) => 12
  }

  /** Tags in strictly increasing rank: the fixed order, and no kind of tag twice. */
  predicate Ranked(tags: seq<Tag>)
  {
    forall i, j :: 0 <= i < j < |tags| ==> Rank(tags[i]) < Rank(tags[j])
  }

  /** `image.startsWith('http') ? image : baseUrl + image`. */
  function AbsoluteImage(image: string, baseUrl: string): (r: string)
    ensures StartsWith(image, "http") ==> r == image
    ensures !StartsWith(image, "http") ==> r == baseUrl + image
  {
    if StartsWith(image, "http") then image else baseUrl + image
  }

  /** 1 when the field is present (truthy), else 0. */
  function Count(a: Option<string>): nat
  {
    if Present(a) then 1 else 0
  }

  /** Which of the two generators: `generateMetaTags`, or `generateSeoTags` on a route path. */
  datatype Generator = MetaTags | SeoTagsOn(fullPath: string)

  /**
   * The tag a generator emits at each rank, if any. Both emit title,
   * description and keywords when present, the canonical link, og:title and
   * og:description when present, og:type always, og:image when an image is
   * present, twitter:card always, then twitter:title, twitter:description and
   * twitter:image when present. Only the plugin emits og:url, and only for a
   * non-empty base URL; the plugin also defaults og:type to 'website' and
   * twitter:card to 'summary_large_image'.
   */
  function Slot(g: Generator, d: SeoData, baseUrl: string, r: nat): (t: Option<Tag>)
    ensures t.Some? ==> Rank(t.value) == r
  {
    if r == 0 then (if Present(d.title) then Some(TitleTag(d.title.value)) else None)
    else if r == 1 then (if Present(d.description) then Some(NameMeta(Description, d.description)) else None)
    else if r == 2 then (if Present(d.keywords) then Some(NameMeta(Keywords, d.keywords)) else None)
    else if r == 3 then (if Present(d.canonical) then Some(CanonicalLink(baseUrl + d.canonical.value)) else None)
    else if r == 4 then (if Present(d.title) then Some(PropertyMeta(OgTitle, d.title)) else None)
    else if r == 5 then (if Present(d.description) then Some(PropertyMeta(OgDescription, d.description)) else None)
    else if r == 6 then
      Some(PropertyMeta(OgType, if g.MetaTags? then d.ogType else Some(OrElse(d.ogType, "website"))))
    else if r == 7 then
      (if g.SeoTagsOn? && baseUrl != "" then Some(PropertyMeta(OgUrl, Some(baseUrl + g.fullPath))) else None)
    else if r == 8 then
      (if Present(d.image) then Some(PropertyMeta(OgImage, Some(AbsoluteImage(d.image.value, baseUrl)))) else None)
    else if r == 9 then
      Some(NameMeta(TwitterCard, if g.MetaTags? then d.twitterCard else Some(OrElse(d.twitterCard, "summary_large_image"))))
    else if r == 10 then (if Present(d.title) then Some(NameMeta(TwitterTitle, d.title)) else None)
    else if r == 11 then (if Present(d.description) then Some(NameMeta(TwitterDescription, d.description)) else None)
    else if r == 12 then
      (if Present(d.image) then Some(NameMeta(TwitterImage, Some(AbsoluteImage(d.image.value, baseUrl)))) else None)
    else None
  }

  /** The tags of ranks below `n`, in rank order. */
  function Collect(g: Generator, d: SeoData, baseUrl: string, n: nat): (tags: seq<Tag>)
    ensures |tags| <= n
  {
    if n == 0 then []
    else
      var t := Slot(g, d, baseUrl, n - 1);
      Collect(g, d, baseUrl, n - 1) + (if t.Some? then [t.value] else [])
  }

  /** The whole tag list of a generator: ranks 0 to 12. */
  function AllTags(g: Generator, d: SeoData, baseUrl: string): (r: seq<Tag>)
    ensures 2 <= |r| <= 13
  {
    CollectBuilt(g, d, baseUrl, 13);
    var tags := Collect(g, d, baseUrl, 13);
    var ogType := Slot(g, d, baseUrl, 6).value;
    var card := Slot(g, d, baseUrl, 9).value;
    assert ogType in tags && card in tags && ogType != card;
    tags
  }

  /**
   * A tag list built up to rank `n`: ranked, every tag below `n` and taken
   * from the table at its own rank, and every tag of the table below `n` in it.
   */
  ghost predicate BuiltBelow(tags: seq<Tag>, g: Generator, d: SeoData, baseUrl: string, n: nat)
  {
    && Ranked(tags)
    && (forall i :: 0 <= i < |tags| ==> Rank(tags[i]) < n && Slot(g, d, baseUrl, Rank(tags[i])) == Some(tags[i]))
    && (forall r: nat :: r < n && Slot(g, d, baseUrl, r).Some? ==> Slot(g, d, baseUrl, r).value in tags)
  }

  lemma {:induction false} CollectBuilt(g: Generator, d: SeoData, baseUrl: string, n: nat)
    ensures BuiltBelow(Collect(g, d, baseUrl, n), g, d, baseUrl, n)
  {
    if n > 0 {
      CollectBuilt(g, d, baseUrl, n - 1);
      var prev := Collect(g, d, baseUrl, n - 1);
      var t := Slot(g, d, baseUrl, n - 1);
      if t.Some? {
        var tags := prev + [t.value];
        assert Collect(g, d, baseUrl, n) == tags;
        assert forall i :: 0 <= i < |prev| ==> tags[i] == prev[i];
      }
    }
  }

  /**
   * A generator's tag list is in the fixed order with each kind at most once,
   * and a tag is in it exactly when the table has it at the tag's rank.
   */
  lemma AllTagsRanked(g: Generator, d: SeoData, baseUrl: string)
    ensures Ranked(AllTags(g, d, baseUrl))
    ensures forall t :: t in AllTags(g, d, baseUrl) <==> Slot(g, d, baseUrl, Rank(t)) == Some(t)
  {
    CollectBuilt(g, d, baseUrl, 13);
    var tags := AllTags(g, d, baseUrl);
    forall t
      ensures t in tags <==> Slot(g, d, baseUrl, Rank(t)) == Some(t)
    {
      if t in tags {
        var i :| 0 <= i < |tags| && tags[i] == t;
      }
    }
  }

  /** og:type and twitter:card are always emitted, exactly once each. */
  lemma TypeAndCardOnce(g: Generator, d: SeoData, baseUrl: string)
    ensures var tags := AllTags(g, d, baseUrl);
      && (exists i :: 0 <= i < |tags| && tags[i].PropertyMeta? && tags[i].property == OgType)
      && (exists i :: 0 <= i < |tags| && tags[i].NameMeta? && tags[i].name == TwitterCard)
      && (forall i, j :: 0 <= i < |tags| && 0 <= j < |tags| && Rank(tags[i]) == 6 && Rank(tags[j]) == 6 ==> i == j)
      && (forall i, j :: 0 <= i < |tags| && 0 <= j < |tags| && Rank(tags[i]) == 9 && Rank(tags[j]) == 9 ==> i == j)
  {
    var tags := AllTags(g, d, baseUrl);
    AllTagsRanked(g, d, baseUrl);
    var ogType := Slot(g, d, baseUrl, 6).value;
    var card := Slot(g, d, baseUrl, 9).value;
    assert ogType in tags;
    assert card in tags;
  }

  /** Two generators whose tables agree below `n` collect the same tags. */
  lemma {:induction false} CollectSameSlots(g: Generator, h: Generator, d: SeoData, baseUrl: string, n: nat)
    requires forall r: nat :: r < n ==> Slot(g, d, baseUrl, r) == Slot(h, d, baseUrl, r)
    ensures Collect(g, d, baseUrl, n) == Collect(h, d, baseUrl, n)
  {
    if n > 0 {
      CollectSameSlots(g, h, d, baseUrl, n - 1);
    }
  }

  /** Two ranked lists with the same tags are the same list: the order and the set of tags fix the output. */
  lemma {:induction false} RankedUnique(a: seq<Tag>, b: seq<Tag>)
    requires Ranked(a) && Ranked(b)
    requires forall t :: t in a <==> t in b
    ensures a == b
  {
    // The heads are the tags of least rank in each list, so neither list can be empty alone.
    assert a != [] ==> a[0] in b;
    assert b != [] ==> b[0] in a;
    if a != [] && b != [] {
      forall t
        ensures t in a[1..] <==> t in b[1..]
      {
        if t in a[1..] {
          var i :| 1 <= i < |a| && a[i] == t;
          assert t in b;
          var j :| 0 <= j < |b| && b[j] == t;
          assert j != 0;
        }
        if t in b[1..] {
          var j :| 1 <= j < |b| && b[j] == t;
          assert t in a;
          var i :| 0 <= i < |a| && a[i] == t;
          assert i != 0;
        }
      }
      RankedUnique(a[1..], b[1..]);
      assert a == [a[0]] + a[1..];
      assert b == [b[0]] + b[1..];
    }
  }
}
