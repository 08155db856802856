/**
 * The menu store of `stores/useMenuStore.js`: café records cached by slug,
 * menus normalised from the content API's records (nested Strapi-v4
 * `attributes` or flat, with `||` defaults and a stable sort by
 * `sortOrder`), and a three-level map of selected menu items.
 *
 * A `TypeError` thrown inside a `try` turns into `false` or an error
 * message; here the functions that can throw return `None`.
 */
module MenuStore {
  import opened Js
  import StableSort

  /** A menu item as the store keeps it. Items of an embedded menu have no `sortOrder`. */
  datatype MenuItem = MenuItem(
    id: Json,
    name: Json,
    description: Json,
    price: Json,
    tags: Json,
    sortOrder: Option<Json>,
    selected: bool)

  /** A menu category as the store keeps it. */
  datatype MenuCategory = MenuCategory(id: Json, title: Json, sortOrder: Option<Json>, items: seq<MenuItem>)

  /** What a `find`/`findOne` call produced: a response value, or an error with its message. */
  datatype FindAnswer = Returned(response: Json) | Threw(message: Option<string>)

  /** `s.map(f)` where `f` may throw: `None` as soon as one element does. */
  function MapAll<A, B>(s: seq<A>, f: A -> Option<B>): (r: Option<seq<B>>)
    ensures r.Some? <==> forall i :: 0 <= i < |s| ==> f(s[i]).Some?
    ensures r.Some? ==> |r.value| == |s| && forall i :: 0 <= i < |s| ==> r.value[i] == f(s[i]).value
  {
    if s == [] then Some([])
    else
      assert forall i :: 1 <= i < |s| ==> s[i] == s[1..][i - 1];
      var head := f(s[0]);
      var rest := MapAll(s[1..], f);
      if head.None? || rest.None? then None else Some([head.value] + rest.value)
  }

  /**
   * The numeric value the comparator `a.sortOrder - b.sortOrder` sees.
   * Only integer sort orders are modelled; anything else counts as 0.
   */
  function SortKey(v: Json): int
  {
    if v.JNum? then v.n else 0
  }

  function ItemKey(item: MenuItem): int
  {
    if item.sortOrder.Some? then SortKey(item.sortOrder.value) else 0
  }

  function CategoryKey(category: MenuCategory): int
  {
    if category.sortOrder.Some? then SortKey(category.sortOrder.value) else 0
  }

  /** No element is null or undefined: a `.map` reading a property of each one does not throw. */
  predicate NoNullish(s: seq<Json>)
  {
    forall i :: 0 <= i < |s| ==> !Nullish(s[i])
  }

  /** `tag.attributes?.name || tag.name`: reading `attributes` of a missing tag throws. */
  function TagFromData(tag: Json): Option<Json>
  {
    if Nullish(tag) then None else Some(Or(Get(Get(tag, "attributes"), "name"), Get(tag, "name")))
  }

  /** `tag.name || tag`. */
  function PlainTag(tag: Json): Option<Json>
  {
    if Nullish(tag) then None else Some(Or(Get(tag, "name"), tag))
  }

  /**
   * `attrs.tags?.data?.map(…) || attrs.tags?.map(…) || attrs.tags || []`.
   * Both `map` results are arrays and so truthy; calling `map` on a value
   * that is not an array throws, so the third alternative only ever sees a
   * missing `tags`, which gives `[]`.
   */
  function ItemTags(attrs: Json): (r: Option<Json>)
    ensures r.Some? ==> r.value.JArr?
    ensures Nullish(Get(attrs, "tags")) ==> r == Some(JArr([]))
    ensures var t := Get(attrs, "tags");
      t.JArr? && (forall i :: 0 <= i < |t.elems| ==> !Nullish(t.elems[i])) ==>
        r.Some? && |r.value.elems| == |t.elems|
        && forall i :: 0 <= i < |t.elems| ==> r.value.elems[i] == Or(Get(t.elems[i], "name"), t.elems[i])
    ensures var t := Get(attrs, "tags");
      !Nullish(t) && !Nullish(Get(t, "data")) ==>
        && (r.Some? <==> Get(t, "data").JArr? && NoNullish(Get(t, "data").elems))
        && (r.Some? ==>
              var data := Get(t, "data").elems;
              && |r.value.elems| == |data|
              && forall i :: 0 <= i < |data| ==>
                   r.value.elems[i] == Or(Get(Get(data[i], "attributes"), "name"), Get(data[i], "name")))
    ensures var t := Get(attrs, "tags");
      !Nullish(t) && Nullish(Get(t, "data")) ==> (r.Some? <==> t.JArr? && NoNullish(t.elems))
  {
    var t := Get(attrs, "tags");
    if Nullish(t) then Some(JArr([]))
    else if !Nullish(Get(t, "data")) then
      if Get(t, "data").JArr? then
        var names := MapAll(Get(t, "data").elems, TagFromData);
        if names.None? then None else Some(JArr(names.value))
      else None
    else if t.JArr? then
      var names := MapAll(t.elems, PlainTag);
      if names.None? then None else Some(JArr(names.value))
    else None
  }

  /** `item.attributes || item`: the fields of a nested record, or the record itself. */
  function Attrs(record: Json): Json
  {
    Or(Get(record, "attributes"), record)
  }

  /** The object `formatItems` builds from one item; `None` when reading it throws. */
  function FormatItem(item: Json): (r: Option<MenuItem>)
    ensures r.Some? <==> !Nullish(item) && ItemTags(Attrs(item)).Some?
    ensures r.Some? ==> var attrs := Attrs(item);
      && r.value.id == Get(item, "id")
      && (Truthy(Get(attrs, "name")) ==> r.value.name == Get(attrs, "name"))
      && (!Truthy(Get(attrs, "name")) && Truthy(Get(attrs, "title")) ==> r.value.name == Get(attrs, "title"))
      && (!Truthy(Get(attrs, "name")) && !Truthy(Get(attrs, "title")) ==> r.value.name == JStr("Unbenannter Artikel"))
      && (Truthy(Get(attrs, "description")) ==> r.value.description == Get(attrs, "description"))
      && (!Truthy(Get(attrs, "description")) ==> r.value.description == JStr(""))
      && (Truthy(Get(attrs, "price")) ==> r.value.price == Get(attrs, "price"))
      && (!Truthy(Get(attrs, "price")) ==> r.value.price == JStr("0,00 €"))
      && r.value.tags == ItemTags(attrs).value
      && r.value.sortOrder.Some?
      && (Truthy(Get(attrs, "sortOrder")) ==> r.value.sortOrder == Some(Get(attrs, "sortOrder")))
      && (!Truthy(Get(attrs, "sortOrder")) && Truthy(Get(attrs, "sort_order")) ==> r.value.sortOrder == Some(Get(attrs, "sort_order")))
      && (!Truthy(Get(attrs, "sortOrder")) && !Truthy(Get(attrs, "sort_order")) ==> r.value.sortOrder == Some(JNum(0)))
      && !r.value.selected
  {
    if Nullish(item) then None
    else
      var attrs := Attrs(item);
      var tags := ItemTags(attrs);
      if tags.None? then None
      else
        Some(MenuItem(
          id := Get(item, "id"),
          name := Or(Or(Get(attrs, "name"), Get(attrs, "title")), JStr("Unbenannter Artikel")),
          description := Or(Get(attrs, "description"), JStr("")),
          price := Or(Get(attrs, "price"), JStr("0,00 €")),
          tags := tags.value,
          sortOrder := Some(Or(Or(Get(attrs, "sortOrder"), Get(attrs, "sort_order")), JNum(0))),
          selected := false))
  }

  /**
   * `formatItems(items)`: `[]` for anything that is not an array; otherwise
   * every item formatted, then stably sorted by `sortOrder`: the result is
   * ordered, is a permutation of the formatted items, and keeps their input
   * order among equal sort orders.
   */
  function FormatItems(items: Json): (r: Option<seq<MenuItem>>)
    ensures !items.JArr? ==> r == Some([])
    ensures items.JArr? ==> (r.Some? <==> MapAll(items.elems, FormatItem).Some?)
    ensures items.JArr? && r.Some? ==>
      var formatted := MapAll(items.elems, FormatItem).value;
      && |r.value| == |items.elems|
      && StableSort.SortedBy(r.value, ItemKey)
      && multiset(r.value) == multiset(formatted)
      && forall k :: StableSort.WithKey(r.value, ItemKey, k) == StableSort.WithKey(formatted, ItemKey, k)
  {
    if !Truthy(items) || !items.JArr? then Some([])
    else
      var formatted := MapAll(items.elems, FormatItem);
      if formatted.None? then None
      else
        StableSort.SortBySpec(formatted.value, ItemKey);
        Some(StableSort.SortBy(formatted.value, ItemKey))
  }

  /** `attrs.items?.data || attrs.items || []`: the items of a category, nested (Strapi v4) or flat. */
  function RawItems(attrs: Json): Json
  {
    Or(Or(Get(Get(attrs, "items"), "data"), Get(attrs, "items")), JArr([]))
  }

  /** The object `formatCategories` builds from one category; `None` when formatting throws. */
  function FormatCategory(category: Json): (r: Option<MenuCategory>)
    ensures r.Some? <==> !Nullish(category) && FormatItems(RawItems(Attrs(category))).Some?
    ensures r.Some? ==> var attrs := Attrs(category);
      && r.value.id == Get(category, "id")
      && (Truthy(Get(attrs, "title")) ==> r.value.title == Get(attrs, "title"))
      && (!Truthy(Get(attrs, "title")) && Truthy(Get(attrs, "name")) ==> r.value.title == Get(attrs, "name"))
      && (!Truthy(Get(attrs, "title")) && !Truthy(Get(attrs, "name")) ==> r.value.title == JStr("Unbenannte Kategorie"))
      && r.value.items == FormatItems(RawItems(attrs)).value
      && r.value.sortOrder.Some?
      && (Truthy(Get(attrs, "sortOrder")) ==> r.value.sortOrder == Some(Get(attrs, "sortOrder")))
      && (!Truthy(Get(attrs, "sortOrder")) && Truthy(Get(attrs, "sort_order")) ==> r.value.sortOrder == Some(Get(attrs, "sort_order")))
      && (!Truthy(Get(attrs, "sortOrder")) && !Truthy(Get(attrs, "sort_order")) ==> r.value.sortOrder == Some(JNum(0)))
  {
    if Nullish(category) then None
    else
      var attrs := Attrs(category);
      var items := FormatItems(RawItems(attrs));
      if items.None? then None
      else
        Some(MenuCategory(
          id := Get(category, "id"),
          title := Or(Or(Get(attrs, "title"), Get(attrs, "name")), JStr("Unbenannte Kategorie")),
          sortOrder := Some(Or(Or(Get(attrs, "sortOrder"), Get(attrs, "sort_order")), JNum(0))),
          items := items.value))
  }

  /** `formatCategories(categories)`, with the same guarantees as `FormatItems`. */
  function FormatCategories(categories: Json): (r: Option<seq<MenuCategory>>)
    ensures !categories.JArr? ==> r == Some([])
    ensures categories.JArr? ==> (r.Some? <==> MapAll(categories.elems, FormatCategory).Some?)
    ensures categories.JArr? && r.Some? ==>
      var formatted := MapAll(categories.elems, FormatCategory).value;
      && |r.value| == |categories.elems|
      && StableSort.SortedBy(r.value, CategoryKey)
      && multiset(r.value) == multiset(formatted)
      && forall k :: StableSort.WithKey(r.value, CategoryKey, k) == StableSort.WithKey(formatted, CategoryKey, k)
  {
    if !Truthy(categories) || !categories.JArr? then Some([])
    else
      var formatted := MapAll(categories.elems, FormatCategory);
      if formatted.None? then None
      else
        StableSort.SortBySpec(formatted.value, CategoryKey);
        Some(StableSort.SortBy(formatted.value, CategoryKey))
  }

  /**
   * A Strapi-v4 record `{ id, attributes: X }` formats exactly like the
   * flat record `{ id, ...X }`, as an item and as a category.
   */
  lemma NestedIsFlat(id: Json, fields: map<string, Json>)
    requires "id" !in fields && "attributes" !in fields
    ensures var nested := JObj(map["id" := id, "attributes" := JObj(fields)]);
      var flat := JObj(fields["id" := id]);
      FormatItem(nested) == FormatItem(flat) && FormatCategory(nested) == FormatCategory(flat)
  {
    var nested := JObj(map["id" := id, "attributes" := JObj(fields)]);
    var flat := JObj(fields["id" := id]);
    assert Attrs(nested) == JObj(fields);
    assert Attrs(flat) == flat;
    forall key | key != "id"
      ensures Get(JObj(fields), key) == Get(flat, key)
    {
    }
    assert ItemTags(Attrs(nested)) == ItemTags(Attrs(flat));
  }

  /** Items that arrive already ordered by `sortOrder` keep their order. */
  lemma FormatItemsOrdered(items: Json)
    requires items.JArr? && MapAll(items.elems, FormatItem).Some?
    requires StableSort.SortedBy(MapAll(items.elems, FormatItem).value, ItemKey)
    ensures FormatItems(items) == MapAll(items.elems, FormatItem)
  {
    StableSort.SortBySorted(MapAll(items.elems, FormatItem).value, ItemKey);
  }

  /** `item.extra?.vegan ? ['vegan'] : []`. */
  function VeganTags(item: Json): (r: Json)
    ensures Truthy(Get(Get(item, "extra"), "vegan")) ==> r == JArr([JStr("vegan")])
    ensures !Truthy(Get(Get(item, "extra"), "vegan")) ==> r == JArr([])
  {
    if Truthy(Get(Get(item, "extra"), "vegan")) then JArr([JStr("vegan")]) else JArr([])
  }

  /** An item of an embedded menu's `menu_block`. */
  function DirectItem(item: Json): (r: Option<MenuItem>)
    ensures r.Some? <==> !Nullish(item)
    ensures r.Some? ==> r.value.tags == VeganTags(item) && r.value.sortOrder.None? && !r.value.selected
    ensures r.Some? ==>
      && r.value.id == Get(item, "id")
      && (Truthy(Get(item, "text")) ==> r.value.name == Get(item, "text"))
      && (!Truthy(Get(item, "text")) ==> r.value.name == JStr("Unbenannter Artikel"))
      && (Truthy(Get(item, "subtext")) ==> r.value.description == Get(item, "subtext"))
      && (!Truthy(Get(item, "subtext")) ==> r.value.description == JStr(""))
      && (Truthy(Get(item, "price")) ==> r.value.price == Get(item, "price"))
      && (!Truthy(Get(item, "price")) ==> r.value.price == JStr("0,00 €"))
  {
    if Nullish(item) then None
    else
      Some(MenuItem(
        id := Get(item, "id"),
        name := Or(Get(item, "text"), JStr("Unbenannter Artikel")),
        description := Or(Get(item, "subtext"), JStr("")),
        price := Or(Get(item, "price"), JStr("0,00 €")),
        tags := VeganTags(item),
        sortOrder := None,
        selected := false))
  }

  /** A category of an embedded menu, with the items of its `menu_block` (none when it is not an array). */
  function DirectCategory(category: Json): (r: Option<MenuCategory>)
    ensures r.Some? <==>
      !Nullish(category) && (Get(category, "menu_block").JArr? ==> NoNullish(Get(category, "menu_block").elems))
    ensures r.Some? ==>
      && r.value.id == Get(category, "id")
      && (Truthy(Get(category, "menu_titel")) ==> r.value.title == Get(category, "menu_titel"))
      && (!Truthy(Get(category, "menu_titel")) ==> r.value.title == JStr("Unbenannte Kategorie"))
      && r.value.sortOrder.None?
      && (!Get(category, "menu_block").JArr? ==> r.value.items == [])
    ensures r.Some? && Get(category, "menu_block").JArr? ==>
      var block := Get(category, "menu_block").elems;
      && |r.value.items| == |block|
      && forall i :: 0 <= i < |block| ==> r.value.items[i] == DirectItem(block[i]).value
  {
    if Nullish(category) then None
    else
      var block := Get(category, "menu_block");
      var items := if block.JArr? then MapAll(block.elems, DirectItem) else Some([]);
      if items.None? then None
      else Some(MenuCategory(Get(category, "id"), Or(Get(category, "menu_titel"), JStr("Unbenannte Kategorie")), None, items.value))
  }

  /** `menuSection.menu` is an array. */
  predicate HasMenuArray(menuSection: Json)
  {
    Truthy(menuSection) && Get(menuSection, "menu").JArr?
  }

  /**
   * The categories `processDirectMenuData` stores: none when the section
   * has no `menu` array, otherwise one per menu entry, in menu order, not
   * sorted.
   */
  function DirectMenu(menuSection: Json): (r: Option<seq<MenuCategory>>)
    ensures !HasMenuArray(menuSection) ==> r.None?
    ensures r.Some? ==> HasMenuArray(menuSection)
    ensures r.Some? ==>
      var menu := Get(menuSection, "menu").elems;
      && |r.value| == |menu|
      && forall i :: 0 <= i < |menu| ==> DirectCategory(menu[i]).Some? && r.value[i] == DirectCategory(menu[i]).value
  {
    if !Truthy(menuSection) || !Truthy(Get(menuSection, "menu")) || !Get(menuSection, "menu").JArr? then None
    else MapAll(Get(menuSection, "menu").elems, DirectCategory)
  }

  /** The category stand-in `fetchCafeBySlug` writes when no menu could be loaded: title only, no items. */
  function PlaceholderCategory(category: Json): (r: Option<MenuCategory>)
    ensures r.Some? <==> !Nullish(category)
    ensures r.Some? ==> r.value.items == [] && r.value.id == Get(category, "id") && r.value.sortOrder.None?
    ensures r.Some? && Truthy(Get(category, "menu_titel")) ==> r.value.title == Get(category, "menu_titel")
    ensures r.Some? && !Truthy(Get(category, "menu_titel")) ==> r.value.title == JStr("Unbenannte Kategorie")
  {
    if Nullish(category) then None
    else Some(MenuCategory(Get(category, "id"), Or(Get(category, "menu_titel"), JStr("Unbenannte Kategorie")), None, []))
  }

  /** `data.attributes.categories.data` is there (Strapi v4). */
  predicate V4Shape(data: Json)
  {
    Truthy(Get(data, "attributes")) && Truthy(Get(Get(data, "attributes"), "categories"))
    && Truthy(Get(Get(Get(data, "attributes"), "categories"), "data"))
  }

  /** `data.categories` is an array. */
  predicate FlatShape(data: Json)
  {
    Get(data, "categories").JArr?
  }

  /** `data.attributes.categories` is there. */
  predicate AttributesShape(data: Json)
  {
    Truthy(Get(data, "attributes")) && Truthy(Get(Get(data, "attributes"), "categories"))
  }

  /**
   * The category list `processApiMenuData` picks: the first of the three
   * shapes that matches, in that order, or none.
   */
  function ExtractCategories(data: Json): (r: Option<Json>)
    ensures r.Some? ==> Truthy(r.value)
    ensures V4Shape(data) ==> r == Some(Get(Get(Get(data, "attributes"), "categories"), "data"))
    ensures !V4Shape(data) && FlatShape(data) ==> r == Some(Get(data, "categories"))
    ensures !V4Shape(data) && !FlatShape(data) && AttributesShape(data) ==> r == Some(Get(Get(data, "attributes"), "categories"))
    ensures r.None? <==> !V4Shape(data) && !FlatShape(data) && !AttributesShape(data)
  {
    var attributes := Get(data, "attributes");
    if Truthy(attributes) && Truthy(Get(attributes, "categories")) && Truthy(Get(Get(attributes, "categories"), "data")) then
      Some(Get(Get(attributes, "categories"), "data"))
    else if Truthy(Get(data, "categories")) && Get(data, "categories").JArr? then
      Some(Get(data, "categories"))
    else if Truthy(attributes) && Truthy(Get(attributes, "categories")) then
      Some(Get(attributes, "categories"))
    else None
  }

  /** The menu `processApiMenuData` stores for `data`, or `None` when it returns false. */
  function ApiMenu(data: Json): (r: Option<seq<MenuCategory>>)
    ensures ExtractCategories(data).None? ==> r.None?
    ensures ExtractCategories(data).Some? ==> r == FormatCategories(ExtractCategories(data).value)
  {
    var extracted := ExtractCategories(data);
    if extracted.None? then None else FormatCategories(extracted.value)
  }

  /** The record the first `findOne` (of `menu-sections`) hands to `processApiMenuData`. */
  function SectionsData(answer: FindAnswer): (r: Option<Json>)
    ensures r.Some? <==> answer.Returned? && Truthy(Get(answer.response, "data"))
    ensures r.Some? ==> r.value == Get(answer.response, "data")
  {
    if answer.Returned? && Truthy(answer.response) && Truthy(Get(answer.response, "data")) then
      Some(Get(answer.response, "data"))
    else None
  }

  /** The record the second `findOne` (of `posts`) hands to `processApiMenuData`: its `menu_section`. */
  function PostsMenuData(answer: FindAnswer): (r: Option<Json>)
    ensures r.Some? <==> answer.Returned? && Truthy(Get(Get(answer.response, "data"), "menu_section"))
    ensures r.Some? ==> r.value == Get(Get(answer.response, "data"), "menu_section")
  {
    if answer.Returned? && Truthy(answer.response) && Truthy(Get(answer.response, "data"))
       && Truthy(Get(Get(answer.response, "data"), "menu_section")) then
      Some(Get(Get(answer.response, "data"), "menu_section"))
    else None
  }

  /** The menu `tryLoadMenuWithFindOne` ends up storing: the first of the two answers that processes. */
  function LoadedMenu(sections: FindAnswer, posts: FindAnswer): (r: Option<seq<MenuCategory>>)
    ensures SectionsData(sections).Some? && ApiMenu(SectionsData(sections).value).Some? ==>
      r == ApiMenu(SectionsData(sections).value)
    ensures (SectionsData(sections).None? || ApiMenu(SectionsData(sections).value).None?) && PostsMenuData(posts).Some? ==>
      r == ApiMenu(PostsMenuData(posts).value)
    ensures r.None? <==>
      (SectionsData(sections).None? || ApiMenu(SectionsData(sections).value).None?)
      && (PostsMenuData(posts).None? || ApiMenu(PostsMenuData(posts).value).None?)
  {
    var first := if SectionsData(sections).Some? then ApiMenu(SectionsData(sections).value) else None;
    if first.Some? then first
    else if PostsMenuData(posts).Some? then ApiMenu(PostsMenuData(posts).value)
    else None
  }

  /** `menu_section.id`, when the café has a menu section with a truthy id. */
  function MenuSectionId(menuSection: Json): (r: Option<Json>)
    ensures r.Some? <==> Truthy(Get(menuSection, "id"))
    ensures r.Some? ==> r.value == Get(menuSection, "id")
  {
    if Truthy(menuSection) && Truthy(Get(menuSection, "id")) then Some(Get(menuSection, "id")) else None
  }

  /** `response.data` when it is an array, else no rows. */
  function DataRows(response: Json): (r: seq<Json>)
    ensures Get(response, "data").JArr? ==> r == Get(response, "data").elems
    ensures !Get(response, "data").JArr? ==> r == []
  {
    if Truthy(response) && Get(response, "data").JArr? then Get(response, "data").elems else []
  }

  /** The first element that is null or undefined, the one a `.map` over `s` stops at. */
  function FirstNullish(s: seq<Json>): Json
  {
    if s == [] then JNull else if Nullish(s[0]) then s[0] else FirstNullish(s[1..])
  }

  /** The message of the `TypeError` thrown when reading `property` of a nullish value (V8's wording). */
  function TypeErrorMessage(v: Json, property: string): string
  {
    "Cannot read properties of " + (if v.JUndefined? then "undefined" else "null") + " (reading '" + property + "')"
  }

  /** The error text `fetchCafeBySlug` records for anything thrown while loading. */
  function LoadFailure(message: string): string
  {
    "Fehler beim Laden der Café-Daten: " + message
  }

  function NotFound(slug: string): string
  {
    "Kein Café mit dem Slug \"" + slug + "\" gefunden"
  }

  const NoMenu := "Keine Menüdaten für dieses Café verfügbar"

  /** `selectedItems[menuId] = {}` unless it is already there. */
  function WithSelection(selected: map<Json, map<Json, map<Json, bool>>>, menuId: Json): (r: map<Json, map<Json, map<Json, bool>>>)
    ensures menuId in r && r.Keys == selected.Keys + {menuId}
    ensures forall m :: m in selected ==> r[m] == selected[m]
    ensures menuId !in selected ==> r[menuId] == map[]
  {
    if menuId in selected then selected else selected[menuId := map[]]
  }

  /** `!!selectedItems[menuId]?.[categoryId]?.[itemId]`. */
  function Selected(selected: map<Json, map<Json, map<Json, bool>>>, menuId: Json, categoryId: Json, itemId: Json): bool
  {
    menuId in selected && categoryId in selected[menuId] && itemId in selected[menuId][categoryId]
    && selected[menuId][categoryId][itemId]
  }

  /** The selection map after `toggleItemSelection(menuId, categoryId, itemId)`. */
  function Toggle(selected: map<Json, map<Json, map<Json, bool>>>, menuId: Json, categoryId: Json, itemId: Json): (r: map<Json, map<Json, map<Json, bool>>>)
    ensures Selected(r, menuId, categoryId, itemId) == !Selected(selected, menuId, categoryId, itemId)
  {
    var byCategory := if menuId in selected then selected[menuId] else map[];
    var byItem := if categoryId in byCategory then byCategory[categoryId] else map[];
    var current := itemId in byItem && byItem[itemId];
    selected[menuId := byCategory[categoryId := byItem[itemId := !current]]]
  }

  /** A toggle changes the selection of its own item and of no other. */
  lemma ToggleOthers(selected: map<Json, map<Json, map<Json, bool>>>, menuId: Json, categoryId: Json, itemId: Json,
                     m: Json, c: Json, i: Json)
    requires (m, c, i) != (menuId, categoryId, itemId)
    ensures Selected(Toggle(selected, menuId, categoryId, itemId), m, c, i) == Selected(selected, m, c, i)
  {
  }

  /** Two toggles of the same item give every item its original selection back. */
  lemma {:induction false} ToggleTwice(selected: map<Json, map<Json, map<Json, bool>>>, menuId: Json, categoryId: Json, itemId: Json,
                                       m: Json, c: Json, i: Json)
    ensures var twice := Toggle(Toggle(selected, menuId, categoryId, itemId), menuId, categoryId, itemId);
      Selected(twice, m, c, i) == Selected(selected, m, c, i)
  {
    var once := Toggle(selected, menuId, categoryId, itemId);
    if (m, c, i) != (menuId, categoryId, itemId) {
      ToggleOthers(selected, menuId, categoryId, itemId, m, c, i);
      ToggleOthers(once, menuId, categoryId, itemId, m, c, i);
    }
  }

  /** The store's refs. */
  class MenuStore {
    var cafes: map<string, Json>
    var menuData: map<Json, seq<MenuCategory>>
    var selectedItems: map<Json, map<Json, map<Json, bool>>>
    var loading: bool
    var error: Option<string>

    constructor()
      ensures cafes == map[] && menuData == map[] && selectedItems == map[] && !loading && error == None
    {
      cafes := map[];
      menuData := map[];
      selectedItems := map[];
      loading := false;
      error := None;
    }

    /** `getCurrentCafe(slug)`: the cached record, or null. */
    function GetCurrentCafe(slug: string): (r: Option<Json>)
      reads this
      ensures r.Some? <==> slug in cafes && Truthy(cafes[slug])
      ensures r.Some? ==> r.value == cafes[slug]
    {
      if slug in cafes && Truthy(cafes[slug]) then Some(cafes[slug]) else None
    }

    /**
     * `getMenuForCafe(slug)`: the stored menu of the café's menu section;
     * `[]` when the café, its `menu_section` or the stored menu is missing.
     */
    function GetMenuForCafe(slug: string): (r: seq<MenuCategory>)
      reads this
      ensures GetCurrentCafe(slug).None? ==> r == []
      ensures GetCurrentCafe(slug).Some? && !Truthy(Get(cafes[slug], "menu_section")) ==> r == []
      ensures GetCurrentCafe(slug).Some? && Truthy(Get(cafes[slug], "menu_section")) ==>
        var menuId := Get(Get(cafes[slug], "menu_section"), "id");
        r == if menuId in menuData then menuData[menuId] else []
    {
      if slug !in cafes || !Truthy(cafes[slug]) || !Truthy(Get(cafes[slug], "menu_section")) then []
      else
        var menuId := Get(Get(cafes[slug], "menu_section"), "id");
        if menuId in menuData then menuData[menuId] else []
    }

    /** `isItemSelected(menuId, categoryId, itemId)`: missing paths read as false. */
    function IsItemSelected(menuId: Json, categoryId: Json, itemId: Json): (r: bool)
      reads this
      ensures r ==> menuId in selectedItems && categoryId in selectedItems[menuId]
      ensures menuId !in selectedItems ==> !r
      ensures menuId in selectedItems && categoryId !in selectedItems[menuId] ==> !r
      ensures menuId in selectedItems && categoryId in selectedItems[menuId] && itemId !in selectedItems[menuId][categoryId] ==> !r
      ensures menuId in selectedItems && categoryId in selectedItems[menuId] && itemId in selectedItems[menuId][categoryId] ==>
        r == selectedItems[menuId][categoryId][itemId]
    {
      Selected(selectedItems, menuId, categoryId, itemId)
    }

    /**
     * `processDirectMenuData(menuId, menuSection)`: stores the embedded
     * menu and makes room for its selections; refuses (and stores nothing)
     * when there is no menu array or an entry cannot be read.
     */
    method ProcessDirectMenuData(menuId: Json, menuSection: Json) returns (processed: bool)
      modifies this`menuData, this`selectedItems
      ensures processed == DirectMenu(menuSection).Some?
      ensures processed ==>
        menuData == old(menuData)[menuId := DirectMenu(menuSection).value]
        && selectedItems == WithSelection(old(selectedItems), menuId)
      ensures !processed ==> menuData == old(menuData) && selectedItems == old(selectedItems)
    {
      var categories := DirectMenu(menuSection);
      if categories.None? {
        return false;
      }
      menuData := menuData[menuId := categories.value];
      if menuId !in selectedItems {
        selectedItems := selectedItems[menuId := map[]];
      }
      processed := true;
    }

    /**
     * `processApiMenuData(menuId, data)`: stores the formatted categories of
     * the first matching shape; refuses (and stores nothing) when no shape
     * matches or formatting throws.
     */
    method ProcessApiMenuData(menuId: Json, data: Json) returns (processed: bool)
      modifies this`menuData, this`selectedItems
      ensures processed == ApiMenu(data).Some?
      ensures processed ==>
        menuData == old(menuData)[menuId := ApiMenu(data).value]
        && selectedItems == WithSelection(old(selectedItems), menuId)
      ensures !processed ==> menuData == old(menuData) && selectedItems == old(selectedItems)
    {
      var extractedCategories := ExtractCategories(data);
      if extractedCategories.None? {
        return false;
      }
      var categories := FormatCategories(extractedCategories.value);
      if categories.None? {
        return false;
      }
      menuData := menuData[menuId := categories.value];
      if menuId !in selectedItems {
        selectedItems := selectedItems[menuId := map[]];
      }
      processed := true;
    }

    /**
     * `tryLoadMenuWithFindOne(menuId)` given the answers of its two
     * requests: the `menu-sections` record first, then the post's
     * `menu_section`; a thrown request moves on to the next.
     */
    method TryLoadMenu(menuId: Json, sections: FindAnswer, posts: FindAnswer) returns (loaded: bool)
      modifies this`menuData, this`selectedItems
      ensures loaded == LoadedMenu(sections, posts).Some?
      ensures loaded ==>
        menuData == old(menuData)[menuId := LoadedMenu(sections, posts).value]
        && selectedItems == WithSelection(old(selectedItems), menuId)
      ensures !loaded ==> menuData == old(menuData) && selectedItems == old(selectedItems)
    {
      var first := SectionsData(sections);
      if first.Some? {
        loaded := ProcessApiMenuData(menuId, first.value);
        if loaded {
          return;
        }
      }
      var second := PostsMenuData(posts);
      if second.Some? {
        loaded := ProcessApiMenuData(menuId, second.value);
        if loaded {
          return;
        }
      }
      loaded := false;
    }

    /**
     * `fetchCafeBySlug(slug)` given the answers of the café query and of
     * the two menu requests. A cached café comes back untouched. Otherwise
     * the first row is cached and its menu loaded: embedded, else by the
     * separate requests, else as title-only categories; a café without a
     * menu records an error but is still returned. `loading` ends false.
     */
    method FetchCafeBySlug(slug: string, answer: FindAnswer, sections: FindAnswer, posts: FindAnswer)
      returns (cafe: Option<Json>)
      modifies this`cafes, this`menuData, this`selectedItems, this`loading, this`error
      ensures old(GetCurrentCafe(slug)).Some? ==>
        cafe == old(GetCurrentCafe(slug))
        && cafes == old(cafes) && menuData == old(menuData) && selectedItems == old(selectedItems)
        && loading == old(loading) && error == old(error)
      ensures old(GetCurrentCafe(slug)).None? ==> !loading
      ensures old(GetCurrentCafe(slug)).None? && answer.Threw? ==>
        cafe == None && error == Some(LoadFailure(OrElse(answer.message, "Unbekannter Fehler")))
        && cafes == old(cafes) && menuData == old(menuData) && selectedItems == old(selectedItems)
      ensures old(GetCurrentCafe(slug)).None? && answer.Returned? && DataRows(answer.response) == [] ==>
        cafe == None && error == Some(NotFound(slug))
        && cafes == old(cafes) && menuData == old(menuData) && selectedItems == old(selectedItems)
      ensures old(GetCurrentCafe(slug)).None? && answer.Returned? && DataRows(answer.response) != []
              && Nullish(DataRows(answer.response)[0]) ==>
        cafe == None && error == Some(LoadFailure(TypeErrorMessage(DataRows(answer.response)[0], "shop_name")))
        && cafes == old(cafes) && menuData == old(menuData) && selectedItems == old(selectedItems)
      ensures old(GetCurrentCafe(slug)).None? && answer.Returned? && DataRows(answer.response) != []
              && !Nullish(DataRows(answer.response)[0])
              && Get(DataRows(answer.response)[0], "menu_section").JUndefined? ==>
        cafe == None && error == Some(LoadFailure(TypeErrorMessage(JUndefined, "substring")))
        && cafes == old(cafes) && menuData == old(menuData) && selectedItems == old(selectedItems)
      ensures old(GetCurrentCafe(slug)).None? && answer.Returned? && DataRows(answer.response) != []
              && !Nullish(DataRows(answer.response)[0])
              && !Get(DataRows(answer.response)[0], "menu_section").JUndefined? ==>
        var cafeData := DataRows(answer.response)[0];
        var menuSection := Get(cafeData, "menu_section");
        var menuId := MenuSectionId(menuSection);
        && cafes == old(cafes)[slug := cafeData]
        && (menuId.None? ==>
              cafe == Some(cafeData) && error == Some(NoMenu) && menuData == old(menuData)
              && selectedItems == old(selectedItems))
        && (menuId.Some? && DirectMenu(menuSection).Some? ==>
              cafe == Some(cafeData) && error == None
              && menuData == old(menuData)[menuId.value := DirectMenu(menuSection).value]
              && selectedItems == WithSelection(old(selectedItems), menuId.value))
        && (menuId.Some? && DirectMenu(menuSection).None? && LoadedMenu(sections, posts).Some? ==>
              cafe == Some(cafeData) && error == None
              && menuData == old(menuData)[menuId.value := LoadedMenu(sections, posts).value]
              && selectedItems == WithSelection(old(selectedItems), menuId.value))
        && (menuId.Some? && DirectMenu(menuSection).None? && LoadedMenu(sections, posts).None? && !HasMenuArray(menuSection) ==>
              cafe == Some(cafeData) && error == Some(NoMenu) && menuData == old(menuData)
              && selectedItems == old(selectedItems))
        && (menuId.Some? && DirectMenu(menuSection).None? && LoadedMenu(sections, posts).None? && HasMenuArray(menuSection) ==>
              var placeholder := MapAll(Get(menuSection, "menu").elems, PlaceholderCategory);
              && (placeholder.Some? ==>
                    cafe == Some(cafeData) && error == None && menuData == old(menuData)[menuId.value := placeholder.value]
                    && selectedItems == WithSelection(old(selectedItems), menuId.value))
              && (placeholder.None? ==>
                    cafe == None && menuData == old(menuData) && selectedItems == old(selectedItems)
                    && error == Some(LoadFailure(TypeErrorMessage(FirstNullish(Get(menuSection, "menu").elems), "id")))))
    {
      if slug in cafes && Truthy(cafes[slug]) {
        return Some(cafes[slug]);
      }
      loading := true;
      error := None;
      if answer.Threw? {
        error := Some(LoadFailure(OrElse(answer.message, "Unbekannter Fehler")));
        loading := false;
        return None;
      }
      var rows := DataRows(answer.response);
      if rows == [] {
        error := Some(NotFound(slug));
        loading := false;
        return None;
      }
      var cafeData := rows[0];
      if Nullish(cafeData) {
        error := Some(LoadFailure(TypeErrorMessage(cafeData, "shop_name")));
        loading := false;
        return None;
      }
      var menuSection := Get(cafeData, "menu_section");
      if menuSection.JUndefined? {
        // `JSON.stringify(undefined)` is undefined, and reading `substring` of it throws.
        error := Some(LoadFailure(TypeErrorMessage(JUndefined, "substring")));
        loading := false;
        return None;
      }
      cafes := cafes[slug := cafeData];
      cafe := Some(cafeData);
      var menuId := MenuSectionId(menuSection);
      if menuId.None? {
        error := Some(NoMenu);
        loading := false;
        return;
      }
      if HasMenuArray(menuSection) {
        var processed := ProcessDirectMenuData(menuId.value, menuSection);
        if processed {
          loading := false;
          return;
        }
      }
      var apiSuccess := TryLoadMenu(menuId.value, sections, posts);
      if !apiSuccess {
        if HasMenuArray(menuSection) {
          var placeholder := MapAll(Get(menuSection, "menu").elems, PlaceholderCategory);
          if placeholder.None? {
            error := Some(LoadFailure(TypeErrorMessage(FirstNullish(Get(menuSection, "menu").elems), "id")));
            loading := false;
            return None;
          }
          menuData := menuData[menuId.value := placeholder.value];
          if menuId.value !in selectedItems {
            selectedItems := selectedItems[menuId.value := map[]];
          }
          loading := false;
          return;
        }
        error := Some(NoMenu);
      }
      loading := false;
    }

    /**
     * `toggleItemSelection(menuId, categoryId, itemId)`: creates the
     * missing levels and flips the one entry.
     */
    method ToggleItemSelection(menuId: Json, categoryId: Json, itemId: Json)
      modifies this`selectedItems
      ensures selectedItems == Toggle(old(selectedItems), menuId, categoryId, itemId)
      ensures IsItemSelected(menuId, categoryId, itemId) == !old(IsItemSelected(menuId, categoryId, itemId))
    {
      ghost var before := selectedItems;
      if menuId !in selectedItems {
        selectedItems := selectedItems[menuId := map[]];
      }
      ghost var byCategory := selectedItems[menuId];
      assert byCategory == if menuId in before then before[menuId] else map[];
      if categoryId !in selectedItems[menuId] {
        selectedItems := selectedItems[menuId := selectedItems[menuId][categoryId := map[]]];
      }
      ghost var byItem := selectedItems[menuId][categoryId];
      assert byItem == if categoryId in byCategory then byCategory[categoryId] else map[];
      assert selectedItems[menuId] == byCategory[categoryId := byItem];
      assert selectedItems == before[menuId := byCategory[categoryId := byItem]];
      var currentValue := itemId in selectedItems[menuId][categoryId] && selectedItems[menuId][categoryId][itemId];
      ghost var toggled := byItem[itemId := !currentValue];
      assert byCategory[categoryId := byItem][categoryId := toggled] == byCategory[categoryId := toggled];
      assert before[menuId := byCategory[categoryId := byItem]][menuId := byCategory[categoryId := toggled]]
          == before[menuId := byCategory[categoryId := toggled]];
      selectedItems := selectedItems[menuId := selectedItems[menuId][categoryId := selectedItems[menuId][categoryId][itemId := !currentValue]]];
    }

    /** `clearError()`. */
    method ClearError()
      modifies this`error
      ensures error == None
    {
      error := None;
    }
  }
}
