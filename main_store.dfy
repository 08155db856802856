/**
 * The main store of `stores/useStore.js`: the list of café posts shown in
 * the grid (which the detail panel edits in place), the navigation state
 * (city, city section, café), the city and section lists, and the search
 * over them. The content API's answers are parameters of the actions that
 * await them; the query each fetch would send is returned.
 */
module MainStore {
  import opened Js
  import Lists

  /** The `kind` tag of a grid entry: absent on fresh API rows, then `'Product'` or `'ProductDetail'`. */
  datatype Kind = Untagged | Product | ProductDetail

  /** A post's `address` component; every field may be missing. */
  datatype Address = Address(city: Option<string>, citySection: Option<string>, zipCode: Option<string>, zipcode: Option<string>)

  /** A café post as the grid holds it, with the fields the store and the detail panel read. */
  datatype Post = Post(id: Option<int>, kind: Kind, uniqueId: Option<int>, shopName: Option<string>, address: Option<Address>)

  /** A café in the search results: `{ id, name, address }`. */
  datatype CafeHit = CafeHit(id: Option<int>, name: Option<string>, address: Option<Address>)

  /** A postal code in the search results: `{ zipCode, city, section }`. */
  datatype ZipHit = ZipHit(zipCode: string, city: Option<string>, section: Option<string>)

  /**
   * `searchResults`. The initial record has no `zipCodes` field; every
   * search sets all four.
   */
  datatype SearchResults = SearchResults(cities: seq<string>, sections: seq<string>, cafes: seq<CafeHit>, zipCodes: Option<seq<ZipHit>>)

  /** `currentCafe`: a post, or a café picked from the search results. */
  datatype CurrentCafe = PostCafe(post: Post) | HitCafe(hit: CafeHit)

  /** The parameters of `fetchPosts`. */
  datatype FetchParams = FetchParams(cafeId: Option<int>, city: Option<string>, section: Option<string>)

  /** What `find('posts', …)` produced for `fetchPosts`: rows, or an error (returned or thrown) with its message. */
  datatype PostsResponse = Loaded(data: seq<Post>) | Failed(message: Option<string>)

  /** The `error` a finished `fetchPosts` leaves: none on success, else the message or the default text. */
  function FetchError(response: PostsResponse): (e: Option<string>)
    ensures e.None? <==> response.Loaded?
    ensures e.Some? ==> e.value != ""
  {
    if response.Loaded? then None else Some(OrElse(response.message, "Failed to fetch posts"))
  }

  /** The posts list a finished `fetchPosts` leaves, starting from `before`. */
  function FetchedPosts(response: PostsResponse, before: seq<Post>): seq<Post>
  {
    if response.Loaded? then Tagged(response.data) else before
  }

  /** What `find` produced for the city and section lists: rows, or a thrown error. */
  datatype RowsResponse = Rows(data: seq<Post>) | RowsFailed

  /** The result types `navigateToSearchResult` dispatches on. */
  datatype SearchTarget =
    | CityTarget(city: string)
    | SectionTarget(section: Option<string>)
    | CafeTarget(cafe: Option<CurrentCafe>)
    | ZipTarget(zip: ZipHit)
    | UnknownTarget

  function KindOf(p: Post): Kind
  {
    p.kind
  }

  /** `posts.findIndex(x => x.kind === 'ProductDetail')`, with `|posts|` for "none". */
  function FirstDetailIndex(posts: seq<Post>): (i: nat)
    ensures i <= |posts|
    ensures i < |posts| ==> posts[i].kind == ProductDetail
    ensures forall j :: 0 <= j < i ==> posts[j].kind != ProductDetail
  {
    Lists.FirstIndexOfKey(posts, KindOf, ProductDetail)
  }

  /** `data.map((post, index) => ({ ...post, uniqueId: index + 1, kind: 'Product' }))`. */
  function Tagged(data: seq<Post>): (r: seq<Post>)
    ensures |r| == |data|
    ensures forall i :: 0 <= i < |data| ==> r[i] == data[i].(uniqueId := Some(i + 1), kind := Product)
  {
    if data == [] then []
    else Tagged(data[..|data| - 1]) + [data[|data| - 1].(uniqueId := Some(|data|), kind := Product)]
  }

  /** `{ $eq: v }`. */
  function Eq(v: Json): Json
  {
    JObj(map["$eq" := v])
  }

  /** `o || {}` for an optional object. */
  function FieldsOr(o: Option<map<string, Json>>): map<string, Json>
  {
    if o.Some? then o.value else map[]
  }

  /** `filters?.address || {}`, when `filters` holds only objects the builder made. */
  function AddressFields(filters: Option<map<string, Json>>): map<string, Json>
  {
    if filters.Some? && "address" in filters.value && filters.value["address"].JObj? then filters.value["address"].fields
    else map[]
  }

  /**
   * The query object `fetchPosts` sends, built in the order of the source:
   * a café id alone; otherwise the section filter, then the city filter
   * merged into the same `address` object.
   */
  function QueryFor(params: FetchParams): (r: Json)
    ensures r.JObj? && Get(r, "populate") == JStr("*")
    ensures PresentId(params.cafeId) ==> Get(r, "filters") == JObj(map["id" := Eq(JNum(params.cafeId.value))])
    ensures !PresentId(params.cafeId) && !Present(params.section) && !Present(params.city) ==> "filters" !in r.fields
  {
    var query := map["populate" := JStr("*")];
    if PresentId(params.cafeId) then
      JObj(query["filters" := JObj(map["id" := Eq(JNum(params.cafeId.value))])])
    else
      var afterSection: Option<map<string, Json>> :=
        if Present(params.section) then
          Some(FieldsOr(None)["address" := JObj(map["city_section" := Eq(JStr(params.section.value))])])
        else None;
      var afterCity: Option<map<string, Json>> :=
        if Present(params.city) then
          Some(FieldsOr(afterSection)["address" := JObj(AddressFields(afterSection)["city" := Eq(JStr(params.city.value))])])
        else afterSection;
      if afterCity.Some? then JObj(query["filters" := JObj(afterCity.value)]) else JObj(query)
  }

  /**
   * The shape of the query: `populate: '*'` always; with a café id, exactly
   * an id filter; otherwise one `address` filter holding `city_section`
   * and/or `city`, and no filters at all when neither is given.
   */
  lemma QueryShape(params: FetchParams)
    ensures Get(QueryFor(params), "populate") == JStr("*")
    ensures PresentId(params.cafeId) ==>
      QueryFor(params) == JObj(map["populate" := JStr("*"), "filters" := JObj(map["id" := Eq(JNum(params.cafeId.value))])])
    ensures !PresentId(params.cafeId) && Present(params.section) && Present(params.city) ==>
      Get(QueryFor(params), "filters")
        == JObj(map["address" := JObj(map["city_section" := Eq(JStr(params.section.value)), "city" := Eq(JStr(params.city.value))])])
    ensures !PresentId(params.cafeId) && !Present(params.section) && Present(params.city) ==>
      Get(QueryFor(params), "filters") == JObj(map["address" := JObj(map["city" := Eq(JStr(params.city.value))])])
    ensures !PresentId(params.cafeId) && Present(params.section) && !Present(params.city) ==>
      Get(QueryFor(params), "filters") == JObj(map["address" := JObj(map["city_section" := Eq(JStr(params.section.value))])])
    ensures !PresentId(params.cafeId) && !Present(params.section) && !Present(params.city) ==>
      QueryFor(params) == JObj(map["populate" := JStr("*")])
  {
  }

  function CityOf(p: Post): Option<string>
  {
    if p.address.Some? then p.address.value.city else None
  }

  function SectionOf(p: Post): Option<string>
  {
    if p.address.Some? then p.address.value.citySection else None
  }

  /** `rows.map(post => field(post)).filter(v => v)`. */
  function PresentValues(rows: seq<Post>, field: Post -> Option<string>): (r: seq<string>)
    ensures forall x :: x in r ==> x != ""
    ensures forall x :: x in r <==> exists i :: 0 <= i < |rows| && Present(field(rows[i])) && field(rows[i]).value == x
  {
    if rows == [] then []
    else
      var rest := PresentValues(rows[1..], field);
      assert forall i :: 1 <= i < |rows| ==> rows[i] == rows[1..][i - 1];
      (if Present(field(rows[0])) then [field(rows[0]).value] else []) + rest
  }

  function Identity(s: string): string
  {
    s
  }

  /**
   * The city (or section) list of `loadAvailableCities` (`loadCitySections`):
   * present values, each kept at its first occurrence.
   */
  function UniqueValues(rows: seq<Post>, field: Post -> Option<string>): (r: seq<string>)
    ensures forall i, j :: 0 <= i < j < |r| ==> r[i] != r[j]
    ensures forall x :: x in r ==> x != "" && x in PresentValues(rows, field)
  {
    var vals := PresentValues(rows, field);
    var r := Lists.DedupBy(vals, Identity);
    DedupDistinct(vals, r);
    Lists.DedupBySubset(vals, Identity);
    r
  }

  /** Deduplicating strings by themselves leaves no string twice. */
  lemma DedupDistinct(vals: seq<string>, r: seq<string>)
    requires r == Lists.DedupBy(vals, Identity)
    ensures forall i, j :: 0 <= i < j < |r| ==> r[i] != r[j]
  {
    Lists.DedupByKeys(vals, Identity);
  }

  /**
   * The extracted list has no duplicates and no empty values, holds every
   * present value of the rows, keeps first-occurrence order, and starts with
   * the first present value.
   */
  lemma UniqueValuesSpec(rows: seq<Post>, field: Post -> Option<string>)
    ensures var r := UniqueValues(rows, field);
      && (forall i, j :: 0 <= i < j < |r| ==> r[i] != r[j])
      && (forall x :: x in r <==> exists i :: 0 <= i < |rows| && Present(field(rows[i])) && field(rows[i]).value == x)
      && (forall i, j :: 0 <= i < j < |r| ==>
            Lists.FirstIndexOfKey(PresentValues(rows, field), Identity, r[i])
            < Lists.FirstIndexOfKey(PresentValues(rows, field), Identity, r[j]))
      && (PresentValues(rows, field) != [] ==> r != [] && r[0] == PresentValues(rows, field)[0])
  {
    var vals := PresentValues(rows, field);
    var r := UniqueValues(rows, field);
    Lists.DedupByKeys(vals, Identity);
    Lists.DedupByFirsts(vals, Identity);
    if vals != [] {
      Lists.DedupByHead(vals, Identity);
    }
    forall x
      ensures x in r <==> x in vals
    {
      if x in r {
        var i :| 0 <= i < |r| && r[i] == x;
        assert Lists.HasKey(r, Identity, x);
        var j :| 0 <= j < |vals| && Identity(vals[j]) == x;
      }
      if x in vals {
        var j :| 0 <= j < |vals| && vals[j] == x;
        assert Lists.HasKey(vals, Identity, x);
        var i :| 0 <= i < |r| && Identity(r[i]) == x;
      }
    }
  }

  /** `name.toLowerCase().includes(lowercaseQuery)` for each name, keeping order. */
  function NameMatches(names: seq<string>, lowercaseQuery: string): (r: seq<string>)
    ensures forall x :: x in r <==> x in names && Contains(ToLower(x), lowercaseQuery)
  {
    Lists.FilterMembers(names, (x: string) => Contains(ToLower(x), lowercaseQuery));
    Lists.Filter(names, (x: string) => Contains(ToLower(x), lowercaseQuery))
  }

  /** The search's café condition: a `'Product'` entry whose `shop_name` contains the query. */
  predicate CafeMatch(p: Post, lowercaseQuery: string)
  {
    p.kind == Product && p.shopName.Some? && Contains(ToLower(p.shopName.value), lowercaseQuery)
  }

  function HitOf(p: Post): CafeHit
  {
    CafeHit(p.id, p.shopName, p.address)
  }

  /** The café part of a search. */
  function CafeHits(posts: seq<Post>, lowercaseQuery: string): (r: seq<CafeHit>)
    ensures |r| <= |posts|
    ensures forall h :: h in r <==> exists i :: 0 <= i < |posts| && CafeMatch(posts[i], lowercaseQuery) && h == HitOf(posts[i])
  {
    if posts == [] then []
    else
      var rest := CafeHits(posts[1..], lowercaseQuery);
      assert forall i :: 1 <= i < |posts| ==> posts[i] == posts[1..][i - 1];
      (if CafeMatch(posts[0], lowercaseQuery) then [HitOf(posts[0])] else []) + rest
  }

  /** `address.zip_code || address.zipcode` of a post, when the post has an address. */
  function ZipOf(p: Post): Option<string>
  {
    if p.address.None? then None
    else if Present(p.address.value.zipCode) then p.address.value.zipCode
    else p.address.value.zipcode
  }

  predicate HasZip(p: Post)
  {
    p.kind == Product && Present(ZipOf(p))
  }

  function ZipHitOf(p: Post): ZipHit
    requires HasZip(p)
  {
    ZipHit(ZipOf(p).value, p.address.value.city, p.address.value.citySection)
  }

  /** Every `'Product'` entry with a postal code, as a `{ zipCode, city, section }` record. */
  function ZipCandidates(posts: seq<Post>): (r: seq<ZipHit>)
    ensures forall z :: z in r <==> exists i :: 0 <= i < |posts| && HasZip(posts[i]) && z == ZipHitOf(posts[i])
  {
    if posts == [] then []
    else
      var rest := ZipCandidates(posts[1..]);
      assert forall i :: 1 <= i < |posts| ==> posts[i] == posts[1..][i - 1];
      (if HasZip(posts[0]) then [ZipHitOf(posts[0])] else []) + rest
  }

  function ZipKey(z: ZipHit): string
  {
    z.zipCode
  }

  /** The postal-code part of a search: deduplicated by code, then matched against the raw query. */
  function ZipHits(posts: seq<Post>, rawQuery: string): (r: seq<ZipHit>)
    ensures forall z :: z in r ==> Contains(z.zipCode, rawQuery) && z in ZipCandidates(posts)
  {
    var dedup := Lists.DedupBy(ZipCandidates(posts), ZipKey);
    var p := (z: ZipHit) => Contains(z.zipCode, rawQuery);
    Lists.DedupBySubset(ZipCandidates(posts), ZipKey);
    Lists.FilterMembers(dedup, p);
    Lists.Filter(dedup, p)
  }

  /**
   * No postal code appears twice; every hit is the record of a `'Product'`
   * entry whose code contains the raw query; and every such code appears.
   */
  lemma ZipHitsSpec(posts: seq<Post>, rawQuery: string)
    ensures var r := ZipHits(posts, rawQuery);
      && (forall i, j :: 0 <= i < j < |r| ==> r[i].zipCode != r[j].zipCode)
      && (forall z :: z in r ==> Contains(z.zipCode, rawQuery) && exists i :: 0 <= i < |posts| && HasZip(posts[i]) && z == ZipHitOf(posts[i]))
      && (forall i :: 0 <= i < |posts| && HasZip(posts[i]) && Contains(ZipOf(posts[i]).value, rawQuery) ==>
            exists z :: z in r && z.zipCode == ZipOf(posts[i]).value)
    ensures var r := ZipHits(posts, rawQuery); var cands := ZipCandidates(posts);
      && (forall z :: z in r ==>
            Lists.FirstIndexOfKey(cands, ZipKey, z.zipCode) < |cands|
            && z == cands[Lists.FirstIndexOfKey(cands, ZipKey, z.zipCode)])
      && (forall i, j :: 0 <= i < j < |r| ==>
            Lists.FirstIndexOfKey(cands, ZipKey, r[i].zipCode) < Lists.FirstIndexOfKey(cands, ZipKey, r[j].zipCode))
  {
    var cands := ZipCandidates(posts);
    var dedup := Lists.DedupBy(cands, ZipKey);
    var p := (z: ZipHit) => Contains(z.zipCode, rawQuery);
    var r := Lists.Filter(dedup, p);
    Lists.DedupByKeys(cands, ZipKey);
    Lists.DedupBySubset(cands, ZipKey);
    Lists.FilterMembers(dedup, p);
    Lists.FilterDistinctKeys(dedup, ZipKey, p);
    var key := ZipKey;
    forall i, j | 0 <= i < j < |r|
      ensures r[i].zipCode != r[j].zipCode
    {
      assert key(r[i]) != key(r[j]);
    }
    forall i | 0 <= i < |posts| && HasZip(posts[i]) && Contains(ZipOf(posts[i]).value, rawQuery)
      ensures exists z :: z in r && z.zipCode == ZipOf(posts[i]).value
    {
      var c := ZipHitOf(posts[i]);
      assert c in cands;
      var w :| 0 <= w < |cands| && cands[w] == c;
      assert Lists.HasKey(cands, ZipKey, c.zipCode);
      var v :| 0 <= v < |dedup| && ZipKey(dedup[v]) == c.zipCode;
      assert dedup[v] in r;
    }
    // The first-occurrence facts of the deduplication survive the filter.
    Lists.DedupByFirsts(cands, ZipKey);
    var first := (z: ZipHit) => Lists.FirstIndexOfKey(cands, ZipKey, z.zipCode);
    forall i, j | 0 <= i < j < |dedup|
      ensures first(dedup[i]) < first(dedup[j])
    {
      assert key(dedup[i]) == dedup[i].zipCode;
    }
    Lists.FilterIncreasing(dedup, first, p);
    forall z | z in r
      ensures first(z) < |cands| && z == cands[first(z)]
    {
      var v :| 0 <= v < |dedup| && dedup[v] == z;
      assert key(dedup[v]) == z.zipCode;
    }
    forall i, j | 0 <= i < j < |r|
      ensures first(r[i]) < first(r[j])
    {
    }
  }

  /** The id of the current café, whichever form it has. */
  function CafeId(c: CurrentCafe): Option<int>
  {
    match c
    case PostCafe(p) => p.id
    case HitCafe(h) => h.id
  }

  function CafeAddress(c: CurrentCafe): Option<Address>
  {
    match c
    case PostCafe(p) => p.address
    case HitCafe(h) => h.address
  }

  /** The store's state, as refs the actions reassign or mutate. */
  class Store {
    var closedList: seq<Json>
    var posts: seq<Post>
    var loading: bool
    var currentCity: string
    var currentSection: Option<string>
    var currentCafe: Option<CurrentCafe>
    var error: Option<string>
    var searchQuery: string
    var searchResults: SearchResults
    var citySections: seq<string>
    var availableCities: seq<string>

    /** The initial state: Köln, nothing selected, nothing loaded. */
    constructor()
      ensures closedList == [] && posts == [] && !loading
      ensures currentCity == "Köln" && currentSection == None && currentCafe == None
      ensures error == None && searchQuery == ""
      ensures searchResults == SearchResults([], [], [], None)
      ensures citySections == [] && availableCities == []
    {
      closedList := [];
      posts := [];
      loading := false;
      currentCity := "Köln";
      currentSection := None;
      currentCafe := None;
      error := None;
      searchQuery := "";
      searchResults := SearchResults([], [], [], None);
      citySections := [];
      availableCities := [];
    }

    /** `closedBundels(payload)`: a copy of the payload. */
    method ClosedBundles(payload: seq<Json>)
      modifies this`closedList
      ensures closedList == payload
    {
      closedList := payload;
    }

    /** `addProducts({ update?, insert? })`: replace the list if `update` is given, then append `insert` if given. */
    method AddProducts(update: Option<seq<Post>>, insert: Option<Post>)
      modifies this`posts
      ensures posts == (if update.Some? then update.value else old(posts)) + (if insert.Some? then [insert.value] else [])
    {
      if update.Some? {
        posts := update.value;
      }
      if insert.Some? {
        posts := posts + [insert.value];
      }
    }

    /** `addProductDetail({ index, obj })`: `posts.splice(index, 0, obj)`. */
    method AddProductDetail(index: int, obj: Post)
      modifies this`posts
      ensures posts == Lists.InsertAt(old(posts), Lists.SpliceStart(index, |old(posts)|), obj)
    {
      posts := Lists.InsertAt(posts, Lists.SpliceStart(index, |posts|), obj);
    }

    /** `removeProductDetail(index)`: `posts.splice(index, 1)`, which removes nothing past the end. */
    method RemoveProductDetail(index: int)
      modifies this`posts
      ensures var i := Lists.SpliceStart(index, |old(posts)|);
        posts == if i < |old(posts)| then Lists.RemoveAt(old(posts), i) else old(posts)
    {
      var i := Lists.SpliceStart(index, |posts|);
      if i < |posts| {
        posts := Lists.RemoveAt(posts, i);
      }
    }

    method ClearProducts()
      modifies this`posts
      ensures posts == []
    {
      posts := [];
    }

    /** `remove()`: removes the first detail entry, but only when it is not at index 0. */
    method Remove()
      modifies this`posts
      ensures var i := FirstDetailIndex(old(posts));
        posts == if 0 < i < |old(posts)| then Lists.RemoveAt(old(posts), i) else old(posts)
    {
      var i := FirstDetailIndex(posts);
      if i < |posts| && i > 0 {
        RemoveProductDetail(i);
      }
    }

    /**
     * `update({ index, obj })`: appends when `index` is at or past the end,
     * otherwise splices `obj` in; either way `obj` lands at the resolved
     * splice start and the other entries keep their order.
     */
    method Update(index: int, obj: Post)
      modifies this`posts
      ensures posts == Lists.InsertAt(old(posts), Lists.SpliceStart(index, |old(posts)|), obj)
    {
      if |posts| <= index {
        AddProducts(None, Some(obj));
      } else {
        AddProductDetail(index, obj);
      }
    }

    /**
     * `fetchPosts(params)` answered by `response`. Success replaces the
     * list with the tagged rows and returns them; failure records the
     * message and leaves the list alone. `loading` ends false either way.
     */
    method FetchPosts(params: FetchParams, response: PostsResponse) returns (result: Option<seq<Post>>, query: Json)
      modifies this`posts, this`loading, this`error
      ensures query == QueryFor(params)
      ensures !loading
      ensures response.Loaded? ==> posts == Tagged(response.data) && error == None && result == Some(posts)
      ensures response.Failed? ==>
        posts == old(posts) && error == Some(OrElse(response.message, "Failed to fetch posts")) && result == None
      ensures posts == FetchedPosts(response, old(posts)) && error == FetchError(response)
    {
      loading := true;
      error := None;
      query := QueryFor(params);
      if response.Loaded? {
        posts := Tagged(response.data);
        result := Some(posts);
      } else {
        error := Some(OrElse(response.message, "Failed to fetch posts"));
        result := None;
      }
      loading := false;
    }

    /**
     * `loadAvailableCities()` answered by `response`: the distinct present
     * cities; the first becomes the current city only when none is set.
     * A failed call returns nothing and changes nothing.
     */
    method LoadAvailableCities(response: RowsResponse) returns (cities: seq<string>)
      modifies this`availableCities, this`currentCity
      ensures response.RowsFailed? ==> cities == [] && availableCities == old(availableCities) && currentCity == old(currentCity)
      ensures response.Rows? ==> cities == UniqueValues(response.data, CityOf) && availableCities == cities
      ensures response.Rows? ==> currentCity == if old(currentCity) == "" && cities != [] then cities[0] else old(currentCity)
    {
      if response.RowsFailed? {
        return [];
      }
      cities := UniqueValues(response.data, CityOf);
      availableCities := cities;
      if currentCity == "" && |cities| > 0 {
        currentCity := cities[0];
      }
    }

    /** `loadCitySections(city)` answered by `response` (the rows of that city). */
    method LoadCitySections(response: RowsResponse) returns (sections: seq<string>)
      modifies this`citySections
      ensures response.RowsFailed? ==> sections == [] && citySections == old(citySections)
      ensures response.Rows? ==> sections == UniqueValues(response.data, SectionOf) && citySections == sections
    {
      if response.RowsFailed? {
        return [];
      }
      sections := UniqueValues(response.data, SectionOf);
      citySections := sections;
    }

    /** `initNavigation()`: the cities, then the sections of the (possibly new) current city. */
    method InitNavigation(cities: RowsResponse, sections: RowsResponse)
      modifies this`availableCities, this`currentCity, this`citySections
      ensures cities.Rows? ==> availableCities == UniqueValues(cities.data, CityOf)
      ensures cities.RowsFailed? ==> availableCities == old(availableCities) && currentCity == old(currentCity)
      ensures sections.Rows? ==> citySections == UniqueValues(sections.data, SectionOf)
      ensures sections.RowsFailed? ==> citySections == old(citySections)
      ensures cities.Rows? ==>
        currentCity == if old(currentCity) == "" && availableCities != [] then availableCities[0] else old(currentCity)
    {
      var _ := LoadAvailableCities(cities);
      var _ := LoadCitySections(sections);
    }

    /**
     * `setCurrentCafe(cafe)`: records the café; if it has an id, fetches
     * that café alone and adopts the city and section of its address.
     */
    method SetCurrentCafe(cafe: Option<CurrentCafe>, response: PostsResponse) returns (query: Option<Json>)
      modifies this`currentCafe, this`currentCity, this`currentSection, this`posts, this`loading, this`error
      ensures currentCafe == cafe
      ensures !(cafe.Some? && PresentId(CafeId(cafe.value))) ==>
        query == None && posts == old(posts) && loading == old(loading) && error == old(error)
        && currentCity == old(currentCity) && currentSection == old(currentSection)
      ensures cafe.Some? && PresentId(CafeId(cafe.value)) ==>
        query == Some(QueryFor(FetchParams(CafeId(cafe.value), None, None)))
        && (response.Loaded? ==> posts == Tagged(response.data))
        && (response.Failed? ==> posts == old(posts))
        && !loading && error == FetchError(response)
      ensures cafe.Some? && PresentId(CafeId(cafe.value)) && CafeAddress(cafe.value).Some? ==>
        currentCity == OrElse(CafeAddress(cafe.value).value.city, old(currentCity))
        && currentSection == (if Present(CafeAddress(cafe.value).value.citySection)
                              then CafeAddress(cafe.value).value.citySection else old(currentSection))
      ensures cafe.Some? && PresentId(CafeId(cafe.value)) && CafeAddress(cafe.value).None? ==>
        currentCity == old(currentCity) && currentSection == old(currentSection)
    {
      currentCafe := cafe;
      query := None;
      if cafe.Some? && PresentId(CafeId(cafe.value)) {
        var _, q := FetchPosts(FetchParams(CafeId(cafe.value), None, None), response);
        query := Some(q);
        var address := CafeAddress(cafe.value);
        if address.Some? {
          if Present(address.value.city) {
            currentCity := address.value.city.value;
          }
          if Present(address.value.citySection) {
            currentSection := address.value.citySection;
          }
        }
      }
    }

    /**
     * `navigateToCity(city)`: sets the city, clears section and café,
     * reloads the sections, clears the grid and fetches the city's posts.
     */
    method NavigateToCity(city: string, sections: RowsResponse, response: PostsResponse)
      returns (result: Option<seq<Post>>, query: Json)
      modifies this`currentCity, this`currentSection, this`currentCafe, this`citySections
      modifies this`posts, this`loading, this`error
      ensures currentCity == city && currentSection == None && currentCafe == None
      ensures sections.Rows? ==> citySections == UniqueValues(sections.data, SectionOf)
      ensures sections.RowsFailed? ==> citySections == old(citySections)
      ensures query == QueryFor(FetchParams(None, Some(city), None))
      ensures posts == if response.Loaded? then Tagged(response.data) else []
      ensures result == (if response.Loaded? then Some(posts) else None) && !loading && error == FetchError(response)
    {
      currentCity := city;
      currentSection := None;
      currentCafe := None;
      var _ := LoadCitySections(sections);
      ClearProducts();
      result, query := FetchPosts(FetchParams(None, Some(city), None), response);
    }

    /** `navigateToSection(section)`: keeps the city, clears the café, fetches the section's posts. */
    method NavigateToSection(section: Option<string>, response: PostsResponse)
      returns (result: Option<seq<Post>>, query: Json)
      modifies this`currentSection, this`currentCafe, this`posts, this`loading, this`error
      ensures currentSection == section && currentCafe == None
      ensures query == QueryFor(FetchParams(None, Some(currentCity), section))
      ensures posts == if response.Loaded? then Tagged(response.data) else []
      ensures result == (if response.Loaded? then Some(posts) else None) && !loading && error == FetchError(response)
    {
      currentSection := section;
      currentCafe := None;
      ClearProducts();
      result, query := FetchPosts(FetchParams(None, Some(currentCity), section), response);
    }

    /** `navigateToHome()`: keeps the city, clears section and café, fetches the city's posts. */
    method NavigateToHome(response: PostsResponse) returns (result: Option<seq<Post>>, query: Json)
      modifies this`currentSection, this`currentCafe, this`posts, this`loading, this`error
      ensures currentSection == None && currentCafe == None
      ensures query == QueryFor(FetchParams(None, Some(currentCity), None))
      ensures posts == if response.Loaded? then Tagged(response.data) else []
      ensures result == (if response.Loaded? then Some(posts) else None) && !loading && error == FetchError(response)
    {
      currentSection := None;
      currentCafe := None;
      ClearProducts();
      result, query := FetchPosts(FetchParams(None, Some(currentCity), None), response);
    }

    /**
     * `navigateToCafe(cafeId)`: clears the grid, fetches the café, and on a
     * non-empty answer makes its first row the current café and adopts its
     * city and section where present.
     */
    method NavigateToCafe(cafeId: Option<int>, response: PostsResponse) returns (cafeData: Option<seq<Post>>, query: Json)
      modifies this`currentCafe, this`currentCity, this`currentSection, this`posts, this`loading, this`error
      ensures query == QueryFor(FetchParams(cafeId, None, None))
      ensures posts == if response.Loaded? then Tagged(response.data) else []
      ensures cafeData == if response.Loaded? then Some(posts) else None
      ensures !(response.Loaded? && |response.data| > 0) ==>
        currentCafe == old(currentCafe) && currentCity == old(currentCity) && currentSection == old(currentSection)
      ensures response.Loaded? && |response.data| > 0 ==> currentCafe == Some(PostCafe(posts[0]))
      ensures response.Loaded? && |response.data| > 0 && posts[0].address.Some? ==>
        currentCity == OrElse(posts[0].address.value.city, old(currentCity))
        && currentSection == (if Present(posts[0].address.value.citySection)
                              then posts[0].address.value.citySection else old(currentSection))
      ensures response.Loaded? && |response.data| > 0 && posts[0].address.None? ==>
        currentCity == old(currentCity) && currentSection == old(currentSection)
    {
      ClearProducts();
      cafeData, query := FetchPosts(FetchParams(cafeId, None, None), response);
      if cafeData.Some? && |cafeData.value| > 0 {
        var first := cafeData.value[0];
        currentCafe := Some(PostCafe(first));
        if first.address.Some? {
          currentCity := OrElse(first.address.value.city, currentCity);
          if Present(first.address.value.citySection) {
            currentSection := first.address.value.citySection;
          }
        }
      }
    }

    /**
     * `search(query)`. A missing or blank query clears the query and all
     * four result lists. Otherwise cities, sections and café names are
     * matched against the trimmed, lower-cased query, and postal codes
     * against the raw query.
     */
    method Search(query: Option<string>)
      modifies this`searchQuery, this`searchResults
      ensures query.None? || Trim(query.value) == "" ==>
        searchQuery == "" && searchResults == SearchResults([], [], [], Some([]))
      ensures query.Some? && Trim(query.value) != "" ==>
        var q := ToLower(Trim(query.value));
        && searchQuery == Trim(query.value)
        && searchResults == SearchResults(NameMatches(availableCities, q), NameMatches(citySections, q),
                                          CafeHits(posts, q), Some(ZipHits(posts, query.value)))
    {
      if query.None? || Trim(query.value) == "" {
        searchQuery := "";
        searchResults := SearchResults([], [], [], Some([]));
        return;
      }
      searchQuery := Trim(query.value);
      var lowercaseQuery := ToLower(searchQuery);
      searchResults := searchResults.(cities := NameMatches(availableCities, lowercaseQuery));
      searchResults := searchResults.(sections := NameMatches(citySections, lowercaseQuery));
      searchResults := searchResults.(cafes := CafeHits(posts, lowercaseQuery));
      searchResults := searchResults.(zipCodes := Some(ZipHits(posts, query.value)));
    }

    /**
     * `navigateToSearchResult(type, value)`: cities and sections navigate,
     * cafés become current, and a postal code selects its city (and its
     * section, or none) and fetches their posts. Unknown types do nothing.
     */
    method NavigateToSearchResult(target: SearchTarget, sections: RowsResponse, response: PostsResponse)
      returns (query: Option<Json>)
      modifies this`currentCity, this`currentSection, this`currentCafe, this`citySections
      modifies this`posts, this`loading, this`error
      ensures target.CityTarget? ==>
        currentCity == target.city && currentSection == None && currentCafe == None
        && query == Some(QueryFor(FetchParams(None, Some(target.city), None)))
        && (sections.Rows? ==> citySections == UniqueValues(sections.data, SectionOf))
        && (sections.RowsFailed? ==> citySections == old(citySections))
        && posts == FetchedPosts(response, []) && !loading && error == FetchError(response)
      ensures !target.CityTarget? ==> citySections == old(citySections)
      ensures target.SectionTarget? ==>
        currentCity == old(currentCity) && currentSection == target.section && currentCafe == None
        && query == Some(QueryFor(FetchParams(None, Some(old(currentCity)), target.section)))
        && posts == FetchedPosts(response, []) && !loading && error == FetchError(response)
      ensures target.CafeTarget? ==> currentCafe == target.cafe
      ensures target.CafeTarget? && !(target.cafe.Some? && PresentId(CafeId(target.cafe.value))) ==>
        query == None && posts == old(posts) && loading == old(loading) && error == old(error)
        && currentCity == old(currentCity) && currentSection == old(currentSection)
      ensures target.CafeTarget? && target.cafe.Some? && PresentId(CafeId(target.cafe.value)) ==>
        var cafe := target.cafe.value;
        && query == Some(QueryFor(FetchParams(CafeId(cafe), None, None)))
        && posts == FetchedPosts(response, old(posts)) && !loading && error == FetchError(response)
        && (CafeAddress(cafe).Some? ==>
              currentCity == OrElse(CafeAddress(cafe).value.city, old(currentCity))
              && currentSection == (if Present(CafeAddress(cafe).value.citySection)
                                    then CafeAddress(cafe).value.citySection else old(currentSection)))
        && (CafeAddress(cafe).None? ==> currentCity == old(currentCity) && currentSection == old(currentSection))
      ensures target.ZipTarget? && Present(target.zip.city) ==>
        currentCity == target.zip.city.value
        && currentSection == (if Present(target.zip.section) then target.zip.section else None)
        && query == Some(QueryFor(FetchParams(None, target.zip.city, if Present(target.zip.section) then target.zip.section else None)))
        && posts == (if response.Loaded? then Tagged(response.data) else old(posts))
        && currentCafe == old(currentCafe) && !loading && error == FetchError(response)
      ensures (target.ZipTarget? && !Present(target.zip.city)) || target.UnknownTarget? ==>
        query == None && currentCity == old(currentCity) && currentSection == old(currentSection)
        && currentCafe == old(currentCafe) && posts == old(posts) && loading == old(loading) && error == old(error)
    {
      query := None;
      match target
      case CityTarget(city) =>
        var _, q := NavigateToCity(city, sections, response);
        query := Some(q);
      case SectionTarget(section) =>
        var _, q := NavigateToSection(section, response);
        query := Some(q);
      case CafeTarget(cafe) =>
        query := SetCurrentCafe(cafe, response);
      case ZipTarget(zip) =>
        if Present(zip.city) {
          currentCity := zip.city.value;
          if Present(zip.section) {
            currentSection := zip.section;
            var _, q := FetchPosts(FetchParams(None, zip.city, zip.section), response);
            query := Some(q);
          } else {
            currentSection := None;
            var _, q := FetchPosts(FetchParams(None, zip.city, None), response);
            query := Some(q);
          }
        }
      case UnknownTarget =>
    }
  }

  /**
   * Inserting with `update` and then removing at the same resolved index
   * gives the list back: the other entries keep their order.
   */
  lemma UpdateThenRemove(posts: seq<Post>, index: int, obj: Post)
    ensures var i := Lists.SpliceStart(index, |posts|);
      i < |Lists.InsertAt(posts, i, obj)| && Lists.RemoveAt(Lists.InsertAt(posts, i, obj), i) == posts
  {
    Lists.RemoveInsert(posts, Lists.SpliceStart(index, |posts|), obj);
  }

  /** A non-negative `update` index lands at `min(index, |posts|)`. */
  lemma UpdatePosition(posts: seq<Post>, index: int, obj: Post)
    requires index >= 0
    ensures var r := Lists.InsertAt(posts, Lists.SpliceStart(index, |posts|), obj);
      |r| == |posts| + 1 && r[if index < |posts| then index else |posts|] == obj
  {
  }

  /** The search results only ever list `'Product'` entries as cafés, each matching the query. */
  lemma CafeHitsAreProducts(posts: seq<Post>, lowercaseQuery: string)
    ensures forall h :: h in CafeHits(posts, lowercaseQuery) ==>
      exists i :: 0 <= i < |posts| && posts[i].kind == Product && posts[i].shopName == h.name
                  && h.name.Some? && Contains(ToLower(h.name.value), lowercaseQuery)
  {
  }
}
