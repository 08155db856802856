/**
 * The detail-panel controller of `plugins/detailPlugin.ts`. Clicking a café
 * in the grid opens a detail entry (a copy of the post tagged
 * `'ProductDetail'`) right after the end of the clicked café's row; clicking
 * it again closes it; clicking another café moves it. The controller keeps
 * two refs, `isDetailOpen` and `currentDetailId`, and splices the store's
 * `posts` in place. The number of items per row, which the browser measures,
 * is an input; timers fire at once.
 */
module DetailPlugin {
  import opened Js
  import Lists
  import opened MainStore

  /** A grid entry that is a café, not the detail panel. */
  predicate IsRegular(p: Post)
  {
    p.kind != ProductDetail
  }

  predicate IsDetail(p: Post)
  {
    p.kind == ProductDetail
  }

  function IdOf(p: Post): Option<int>
  {
    p.id
  }

  /** The number of café entries in `s`. */
  function RegularCount(s: seq<Post>): nat
  {
    |Lists.Filter(s, IsRegular)|
  }

  /** The number of detail entries in `s`. */
  function DetailCount(s: seq<Post>): nat
  {
    |Lists.Filter(s, IsDetail)|
  }

  /** Both counts add up over a concatenation, and every entry is one or the other. */
  lemma CountSplit(a: seq<Post>, b: seq<Post>)
    ensures RegularCount(a + b) == RegularCount(a) + RegularCount(b)
    ensures DetailCount(a + b) == DetailCount(a) + DetailCount(b)
  {
    Lists.FilterAppend(a, b, IsRegular);
    Lists.FilterAppend(a, b, IsDetail);
  }

  lemma {:induction false} CountTotal(s: seq<Post>)
    ensures RegularCount(s) + DetailCount(s) == |s|
  {
    if s != [] {
      CountTotal(s[1..]);
    }
  }

  /** Extending a prefix by one entry adds one to the café count exactly when that entry is a café. */
  lemma CountStep(s: seq<Post>, i: nat)
    requires i < |s|
    ensures RegularCount(s[..i + 1]) == RegularCount(s[..i]) + (if IsRegular(s[i]) then 1 else 0)
    ensures DetailCount(s[..i + 1]) == DetailCount(s[..i]) + (if IsDetail(s[i]) then 1 else 0)
  {
    assert s[..i + 1] == s[..i] + [s[i]];
    CountSplit(s[..i], [s[i]]);
  }

  /** The café count of a prefix grows with the prefix. */
  lemma CountMonotone(s: seq<Post>)
    ensures forall a, b :: 0 <= a <= b <= |s| ==> RegularCount(s[..a]) <= RegularCount(s[..b])
  {
    forall a, b | 0 <= a <= b <= |s|
      ensures RegularCount(s[..a]) <= RegularCount(s[..b])
    {
      assert s[..b] == s[..a] + s[a..b];
      CountSplit(s[..a], s[a..b]);
    }
  }

  /** A list without detail entries: the café count of any prefix is its length. */
  lemma NoDetails(s: seq<Post>)
    requires DetailCount(s) == 0
    ensures forall i :: 0 <= i < |s| ==> IsRegular(s[i])
    ensures Lists.Filter(s, IsRegular) == s
    ensures forall r :: 0 <= r <= |s| ==> RegularCount(s[..r]) == r
  {
    Lists.FilterMembers(s, IsDetail);
    forall i | 0 <= i < |s|
      ensures IsRegular(s[i])
    {
      var f := Lists.Filter(s, IsDetail);
      assert f == [];
      assert s[i] !in f;
    }
    Lists.FilterAllPass(s, IsRegular);
    forall r | 0 <= r <= |s|
      ensures RegularCount(s[..r]) == r
    {
      Lists.FilterAllPass(s[..r], IsRegular);
    }
  }

  /**
   * The index of the café entry that has exactly `e` café entries before
   * it, or `|s|` when `s` holds no more than `e` cafés.
   */
  function PositionOfRegular(s: seq<Post>, e: nat): (r: nat)
    ensures r <= |s|
    ensures r < |s| ==> IsRegular(s[r]) && RegularCount(s[..r]) == e
    ensures r == |s| ==> RegularCount(s) <= e
  {
    if s == [] then 0
    else
      var init := s[..|s| - 1];
      var last := s[|s| - 1];
      var p := PositionOfRegular(init, e);
      assert s == init + [last];
      CountSplit(init, [last]);
      if p < |init| then
        assert s[..p] == init[..p];
        p
      else if IsRegular(last) && RegularCount(init) == e then
        assert s[..|init|] == init;
        |init|
      else
        |s|
  }

  /** The position is determined by its defining property. */
  lemma PositionUnique(s: seq<Post>, e: nat, i: nat)
    requires i < |s| && IsRegular(s[i]) && RegularCount(s[..i]) == e
    ensures PositionOfRegular(s, e) == i
  {
    var r := PositionOfRegular(s, e);
    CountMonotone(s);
    CountStep(s, i);
    assert s[..|s|] == s;
    if r < |s| {
      CountStep(s, r);
    }
  }

  lemma PositionNone(s: seq<Post>, e: nat)
    requires RegularCount(s) <= e
    ensures PositionOfRegular(s, e) == |s|
  {
    var r := PositionOfRegular(s, e);
    CountMonotone(s);
    assert s[..|s|] == s;
    if r < |s| {
      CountStep(s, r);
    }
  }

  /** The café count after the clicked café's row: `(⌊j / k⌋ + 1) · k`, past `j` and at least `k`. */
  function EndOfRow(j: nat, k: nat): (e: nat)
    requires k >= 1
    ensures e > j && e >= k
  {
    RowArithmetic(j, k);
    (j / k + 1) * k
  }

  lemma RowArithmetic(j: nat, k: nat)
    requires k >= 1
    ensures (j / k + 1) * k > j && (j / k + 1) * k >= k
  {
    var q := j / k;
    assert j == q * k + j % k;
    assert (q + 1) * k == q * k + k;
    assert q * k >= 0;
  }

  /**
   * Where `calculateTargetPosition` puts the detail entry for the café
   * `productId` with `k` items per row: after the last café of the clicked
   * café's row, counting cafés only; at the end when the café is unknown or
   * its row is the last.
   */
  function TargetPosition(posts: seq<Post>, productId: Option<int>, k: nat): (r: nat)
    requires k >= 1
    ensures r <= |posts|
    ensures !Lists.HasKey(Lists.Filter(posts, IsRegular), IdOf, productId) ==> r == |posts|
  {
    var regulars := Lists.Filter(posts, IsRegular);
    var j := Lists.FirstIndexOfKey(regulars, IdOf, productId);
    if j == |regulars| then |posts| else PositionOfRegular(posts, EndOfRow(j, k))
  }

  /**
   * For a known café at index `j` among the cafés, the position has exactly
   * `EndOfRow(j, k)` cafés before it and is a café itself, or is the end of
   * the list when there are no more cafés than that; it is never 0.
   */
  lemma TargetAfterRow(posts: seq<Post>, productId: Option<int>, k: nat)
    requires k >= 1
    requires Lists.HasKey(Lists.Filter(posts, IsRegular), IdOf, productId)
    ensures var regulars := Lists.Filter(posts, IsRegular);
      var e := EndOfRow(Lists.FirstIndexOfKey(regulars, IdOf, productId), k);
      var r := TargetPosition(posts, productId, k);
      && r > 0
      && (r < |posts| ==> IsRegular(posts[r]) && RegularCount(posts[..r]) == e)
      && (r == |posts| ==> RegularCount(posts) <= e)
  {
    var regulars := Lists.Filter(posts, IsRegular);
    var j := Lists.FirstIndexOfKey(regulars, IdOf, productId);
    var w :| 0 <= w < |regulars| && IdOf(regulars[w]) == productId;
    assert j < |regulars|;
    assert Lists.Filter([], IsRegular) == [];
    assert posts[..0] == [];
  }

  /**
   * Without a detail entry in the list, the position is `min(e, |posts|)`,
   * which lies after the clicked café.
   */
  lemma TargetWithoutDetails(posts: seq<Post>, productId: Option<int>, k: nat)
    requires k >= 1 && DetailCount(posts) == 0
    requires Lists.HasKey(posts, IdOf, productId)
    ensures var j := Lists.FirstIndexOfKey(posts, IdOf, productId);
      var e := EndOfRow(j, k);
      var r := TargetPosition(posts, productId, k);
      r == (if e < |posts| then e else |posts|) && j < r
  {
    NoDetails(posts);
    assert posts[..|posts|] == posts;
  }

  /** `posts` with its first detail entry removed, as `closeDetail` and `updateDetail` do. */
  function WithoutFirstDetail(posts: seq<Post>): (r: seq<Post>)
    ensures DetailCount(posts) > 0 ==> DetailCount(r) == DetailCount(posts) - 1 && RegularCount(r) == RegularCount(posts)
    ensures DetailCount(posts) == 0 ==> r == posts
  {
    var i := FirstDetailIndex(posts);
    if i < |posts| then
      assert posts == posts[..i] + [posts[i]] + posts[i + 1..];
      CountSplit(posts[..i] + [posts[i]], posts[i + 1..]);
      CountSplit(posts[..i], [posts[i]]);
      CountSplit(posts[..i], posts[i + 1..]);
      Lists.RemoveAt(posts, i)
    else
      assert !(exists m :: 0 <= m < |posts| && IsDetail(posts[m]));
      Lists.FilterMembers(posts, IsDetail);
      assert Lists.Filter(posts, IsDetail) != [] ==> Lists.Filter(posts, IsDetail)[0] in Lists.Filter(posts, IsDetail);
      posts
  }

  /** The list after `store.update` inserts the detail copy of `product` at `position`. */
  function WithDetail(posts: seq<Post>, position: int, product: Post): (r: seq<Post>)
    ensures |r| == |posts| + 1
    ensures DetailCount(r) == DetailCount(posts) + 1 && RegularCount(r) == RegularCount(posts)
    ensures Lists.RemoveAt(r, Lists.SpliceStart(position, |posts|)) == posts
  {
    var i := Lists.SpliceStart(position, |posts|);
    var d := product.(kind := ProductDetail);
    assert posts == posts[..i] + posts[i..];
    CountSplit(posts[..i] + [d], posts[i..]);
    CountSplit(posts[..i], [d]);
    CountSplit(posts[..i], posts[i..]);
    Lists.RemoveInsert(posts, i, d);
    Lists.InsertAt(posts, i, d)
  }

  /** In a list without detail entries, the inserted detail is the first one, so removing it restores the list. */
  lemma WithDetailThenWithout(posts: seq<Post>, position: int, product: Post)
    requires DetailCount(posts) == 0
    ensures WithoutFirstDetail(WithDetail(posts, position, product)) == posts
  {
    NoDetails(posts);
    var i := Lists.SpliceStart(position, |posts|);
    var r := WithDetail(posts, position, product);
    assert r[i].kind == ProductDetail;
    assert forall m :: 0 <= m < i ==> r[m] == posts[m];
    assert FirstDetailIndex(r) == i;
  }

  /** The fallback table of `getActualItemsPerRow`, by window width. */
  function FallbackItemsPerRow(width: int): (n: nat)
    ensures width >= 1024 ==> n == 4
    ensures 768 <= width < 1024 ==> n == 2
    ensures width < 768 ==> n == 1
  {
    if width >= 1280 then 4
    else if width >= 1024 then 4
    else if width >= 768 then 2
    else 1
  }

  /** Two grid elements whose tops differ by less than 5 pixels are in the same row. */
  predicate SameRow(top0: int, top: int)
  {
    -5 < top - top0 < 5
  }

  /**
   * `getActualItemsPerRow` given the window width and the measured tops of
   * the grid's café elements (`None` when the DOM query throws). With fewer
   * than two elements the fallback is used; otherwise the result is the
   * length of the leading run of elements in the first element's row.
   */
  method ActualItemsPerRow(width: int, tops: Option<seq<int>>) returns (n: nat)
    ensures n >= 1
    ensures tops.None? || |tops.value| < 2 ==> n == FallbackItemsPerRow(width)
    ensures tops.Some? && |tops.value| >= 2 ==>
      && n <= |tops.value|
      && (forall i :: 1 <= i < n ==> SameRow(tops.value[0], tops.value[i]))
      && (n < |tops.value| ==> !SameRow(tops.value[0], tops.value[n]))
  {
    var fallbackItems := FallbackItemsPerRow(width);
    if tops.None? || |tops.value| < 2 {
      return fallbackItems;
    }
    var elements := tops.value;
    var itemsInFirstRow := 1;
    var i := 1;
    while i < |elements|
      invariant 1 <= i <= |elements|
      invariant itemsInFirstRow == i
      invariant forall m :: 1 <= m < i ==> SameRow(elements[0], elements[m])
    {
      if SameRow(elements[0], elements[i]) {
        itemsInFirstRow := itemsInFirstRow + 1;
      } else {
        break;
      }
      i := i + 1;
    }
    n := if itemsInFirstRow > 0 then itemsInFirstRow else fallbackItems;
  }

  /** The controller's refs, next to the store whose `posts` it edits. */
  class DetailPanel {
    const store: Store
    var isDetailOpen: bool
    var currentDetailId: Option<int>

    /**
     * The controller's invariant: exactly one detail entry while open and
     * none while closed; an open panel knows the (truthy) id of its café.
     */
    predicate Consistent()
      reads this, store
    {
      && DetailCount(store.posts) == (if isDetailOpen then 1 else 0)
      && (isDetailOpen ==> PresentId(currentDetailId))
      && (!isDetailOpen ==> currentDetailId == None)
    }

    constructor(store: Store)
      ensures this.store == store && !isDetailOpen && currentDetailId == None
    {
      this.store := store;
      isDetailOpen := false;
      currentDetailId := None;
    }

    /**
     * `calculateTargetPosition(productId)` with the measured items per row:
     * the counting loop over `posts` finds `TargetPosition`.
     */
    method CalculateTargetPosition(productId: Option<int>, itemsPerRow: nat) returns (targetPosition: nat)
      requires itemsPerRow >= 1
      ensures targetPosition == TargetPosition(store.posts, productId, itemsPerRow)
    {
      var posts := store.posts;
      var regularProducts := Lists.Filter(posts, IsRegular);
      var productIndex := Lists.FirstIndexOfKey(regularProducts, IdOf, productId);
      if productIndex == |regularProducts| {
        return |posts|;
      }
      var endOfRowPosition := EndOfRow(productIndex, itemsPerRow);
      targetPosition := 0;
      var regularCount := 0;
      var i := 0;
      ghost var found := false;
      assert Lists.Filter([], IsRegular) == [];
      while i < |posts|
        invariant 0 <= i <= |posts|
        invariant regularCount == RegularCount(posts[..i])
        invariant regularCount <= endOfRowPosition
        invariant !found ==> targetPosition == 0
        invariant found ==> targetPosition > 0 && targetPosition == PositionOfRegular(posts, endOfRowPosition)
      {
        CountStep(posts, i);
        if IsRegular(posts[i]) {
          regularCount := regularCount + 1;
        }
        if regularCount > endOfRowPosition {
          PositionUnique(posts, endOfRowPosition, i);
          targetPosition := i;
          found := true;
          break;
        }
        i := i + 1;
      }
      if !found {
        assert posts[..|posts|] == posts;
        PositionNone(posts, endOfRowPosition);
      }
      if targetPosition == 0 {
        targetPosition := |posts|;
      }
    }

    /** `closeDetail()`: removes the first detail entry, if any, and closes the panel. */
    method CloseDetail() returns (closed: bool)
      modifies store`posts, this`isDetailOpen, this`currentDetailId
      ensures store.posts == WithoutFirstDetail(old(store.posts))
      ensures !isDetailOpen && currentDetailId == None && closed
    {
      var detailIndex := FirstDetailIndex(store.posts);
      if detailIndex < |store.posts| {
        store.RemoveProductDetail(detailIndex);
      }
      isDetailOpen := false;
      currentDetailId := None;
      closed := true;
    }

    /**
     * `openDetail(position, product)`: a café without a truthy id is
     * refused; otherwise its detail copy goes in at `position` and the panel
     * opens on its id.
     */
    method OpenDetail(position: int, product: Post) returns (success: bool)
      modifies store`posts, this`isDetailOpen, this`currentDetailId
      ensures success == PresentId(product.id)
      ensures !success ==>
        store.posts == old(store.posts) && isDetailOpen == old(isDetailOpen) && currentDetailId == old(currentDetailId)
      ensures success ==>
        store.posts == WithDetail(old(store.posts), position, product) && isDetailOpen && currentDetailId == product.id
    {
      if !PresentId(product.id) {
        return false;
      }
      var detailObj := product.(kind := ProductDetail);
      store.Update(position, detailObj);
      isDetailOpen := true;
      currentDetailId := product.id;
      success := true;
    }

    /**
     * `updateDetail(product)`: removes the old detail entry, computes the
     * position on the list without it, and opens there (the timer fires at
     * once). It reports true whether or not the opening succeeded.
     */
    method UpdateDetail(product: Post, itemsPerRow: nat) returns (updated: bool)
      requires itemsPerRow >= 1
      modifies store`posts, this`isDetailOpen, this`currentDetailId
      ensures updated
      ensures var without := WithoutFirstDetail(old(store.posts));
        && (PresentId(product.id) ==>
              store.posts == WithDetail(without, TargetPosition(without, product.id, itemsPerRow), product)
              && isDetailOpen && currentDetailId == product.id)
        && (!PresentId(product.id) ==>
              store.posts == without && isDetailOpen == old(isDetailOpen) && currentDetailId == old(currentDetailId))
    {
      var detailIndex := FirstDetailIndex(store.posts);
      if detailIndex < |store.posts| {
        store.RemoveProductDetail(detailIndex);
      }
      var targetPosition := CalculateTargetPosition(product.id, itemsPerRow);
      var _ := OpenDetail(targetPosition, product);
      updated := true;
    }

    /**
     * `productSetup(product)`, as written: a missing product is refused; the
     * open café clicked again closes; another café clicked while open moves
     * the panel; otherwise the panel opens on the café. The invariant
     * survives every click on a café with a truthy id, but a click on one
     * without while the panel is open leaves it open with no detail entry.
     */
    method ProductSetup(product: Option<Post>, itemsPerRow: nat) returns (handled: bool)
      requires itemsPerRow >= 1
      modifies store`posts, this`isDetailOpen, this`currentDetailId
      ensures product.None? ==>
        !handled && store.posts == old(store.posts)
        && isDetailOpen == old(isDetailOpen) && currentDetailId == old(currentDetailId)
      ensures product.Some? && old(isDetailOpen) && old(currentDetailId) == product.value.id ==>
        handled && store.posts == WithoutFirstDetail(old(store.posts)) && !isDetailOpen && currentDetailId == None
      ensures product.Some? && old(isDetailOpen) && old(currentDetailId) != product.value.id ==>
        var without := WithoutFirstDetail(old(store.posts));
        && handled
        && (PresentId(product.value.id) ==>
              store.posts == WithDetail(without, TargetPosition(without, product.value.id, itemsPerRow), product.value)
              && isDetailOpen && currentDetailId == product.value.id)
        && (!PresentId(product.value.id) ==>
              store.posts == without && isDetailOpen && currentDetailId == old(currentDetailId))
      ensures product.Some? && !old(isDetailOpen) ==>
        && handled == PresentId(product.value.id)
        && (PresentId(product.value.id) ==>
              store.posts == WithDetail(old(store.posts), TargetPosition(old(store.posts), product.value.id, itemsPerRow), product.value)
              && isDetailOpen && currentDetailId == product.value.id)
        && (!PresentId(product.value.id) ==>
              store.posts == old(store.posts) && !isDetailOpen && currentDetailId == old(currentDetailId))
      ensures old(Consistent()) && (product.None? || PresentId(product.value.id)) ==> Consistent()
      ensures old(Consistent()) && old(isDetailOpen) && product.Some? && !PresentId(product.value.id) ==>
        isDetailOpen && DetailCount(store.posts) == 0
    {
      if product.None? {
        return false;
      }
      var productId := product.value.id;
      if currentDetailId == productId && isDetailOpen {
        handled := CloseDetail();
        return;
      }
      if isDetailOpen && currentDetailId != productId {
        handled := UpdateDetail(product.value, itemsPerRow);
        return;
      }
      var targetPosition := CalculateTargetPosition(productId, itemsPerRow);
      handled := OpenDetail(targetPosition, product.value);
    }

    /**
     * `productSetup` with the id check moved in front: a click on a café
     * without a truthy id changes nothing, so the invariant survives every
     * click.
     */
    method ProductSetupGuarded(product: Option<Post>, itemsPerRow: nat) returns (handled: bool)
      requires itemsPerRow >= 1
      modifies store`posts, this`isDetailOpen, this`currentDetailId
      ensures product.None? || !PresentId(product.value.id) ==>
        !handled && store.posts == old(store.posts)
        && isDetailOpen == old(isDetailOpen) && currentDetailId == old(currentDetailId)
      ensures product.Some? && PresentId(product.value.id) ==> handled
      ensures old(Consistent()) ==> Consistent()
    {
      if product.None? || !PresentId(product.value.id) {
        return false;
      }
      handled := ProductSetup(product, itemsPerRow);
    }

    /**
     * The resize handler once its debounce timer fires: an open panel is
     * moved to the position computed for the current layout.
     */
    method Resize(itemsPerRow: nat)
      requires itemsPerRow >= 1
      modifies store`posts, this`isDetailOpen, this`currentDetailId
      ensures var i := Lists.FirstIndexOfKey(old(store.posts), IdAndKind, (old(currentDetailId), true));
        var without := WithoutFirstDetail(old(store.posts));
        if old(isDetailOpen) && PresentId(old(currentDetailId)) && i < |old(store.posts)| then
          store.posts == WithDetail(without, TargetPosition(without, old(currentDetailId), itemsPerRow), old(store.posts)[i])
          && isDetailOpen && currentDetailId == old(currentDetailId)
        else
          store.posts == old(store.posts) && isDetailOpen == old(isDetailOpen) && currentDetailId == old(currentDetailId)
      ensures old(Consistent()) ==> Consistent()
    {
      if isDetailOpen && PresentId(currentDetailId) {
        var i := Lists.FirstIndexOfKey(store.posts, IdAndKind, (currentDetailId, true));
        if i < |store.posts| {
          var _ := UpdateDetail(store.posts[i], itemsPerRow);
        }
      }
    }

    /** Any sequence of guarded clicks keeps the invariant. */
    method ClickAll(clicks: seq<Option<Post>>, itemsPerRow: nat)
      requires itemsPerRow >= 1 && Consistent()
      modifies store`posts, this`isDetailOpen, this`currentDetailId
      ensures Consistent()
    {
      var n := 0;
      while n < |clicks|
        invariant 0 <= n <= |clicks|
        invariant Consistent()
      {
        var _ := ProductSetupGuarded(clicks[n], itemsPerRow);
        n := n + 1;
      }
    }

    /** Any sequence of clicks on cafés with truthy ids (or on nothing) keeps the invariant, as written. */
    method ClickAllWithIds(clicks: seq<Option<Post>>, itemsPerRow: nat)
      requires itemsPerRow >= 1 && Consistent()
      requires forall n :: 0 <= n < |clicks| ==> clicks[n].None? || PresentId(clicks[n].value.id)
      modifies store`posts, this`isDetailOpen, this`currentDetailId
      ensures Consistent()
    {
      var n := 0;
      while n < |clicks|
        invariant 0 <= n <= |clicks|
        invariant Consistent()
      {
        var _ := ProductSetup(clicks[n], itemsPerRow);
        n := n + 1;
      }
    }

    /** From a closed panel, clicking the same café twice gives back the original list. */
    method ClickTwice(product: Post, itemsPerRow: nat)
      requires itemsPerRow >= 1 && Consistent() && !isDetailOpen && PresentId(product.id)
      modifies store`posts, this`isDetailOpen, this`currentDetailId
      ensures store.posts == old(store.posts) && !isDetailOpen && currentDetailId == None
    {
      var _ := ProductSetup(Some(product), itemsPerRow);
      var _ := ProductSetup(Some(product), itemsPerRow);
      WithDetailThenWithout(old(store.posts), TargetPosition(old(store.posts), product.id, itemsPerRow), product);
    }
  }

  /**
   * The `find` condition of the resize handler: the café entry whose id is
   * the open panel's id.
   */
  function IdAndKind(p: Post): (Option<int>, bool)
  {
    (p.id, IsRegular(p))
  }

  /**
   * A grid of two cafés; the panel opens on the first, then a café without
   * an id is clicked: the panel stays open while the list holds no detail.
   */
  method IdlessClickWhileOpen() returns (panel: DetailPanel)
    ensures panel.isDetailOpen && DetailCount(panel.store.posts) == 0
  {
    var store := new Store();
    var first := Post(Some(1), Product, Some(1), Some("Café Eins"), None);
    var second := Post(Some(2), Product, Some(2), Some("Café Zwei"), None);
    var idless := Post(None, Product, Some(3), Some("Café Drei"), None);
    store.AddProducts(Some([first, second]), None);
    panel := new DetailPanel(store);
    assert [first, second][1..] == [second];
    assert Lists.Filter([second], IsDetail) == [];
    assert DetailCount([first, second]) == 0;
    assert panel.store == store;
    assert store.posts == [first, second];
    assert !panel.isDetailOpen && panel.currentDetailId == None;
    assert DetailCount(panel.store.posts) == 0;
    assert panel.Consistent();
    var _ := panel.ProductSetup(Some(first), 1);
    assert panel.Consistent() && panel.isDetailOpen;
    var _ := panel.ProductSetup(Some(idless), 1);
  }
}
