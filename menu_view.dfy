/** The menu page's item pipeline (`renderMenu`): category filter, case-insensitive search, then
    an in-place stable sort by price or popularity. */
module MenuView {
  import opened Wrappers
  import opened Seqs
  import opened Text
  import opened Model

  /** `filterCategory && filterCategory !== 'All'`: null, the empty string and "All" select no filter. */
  predicate CategoryApplies(filterCategory: Option<string>) {
    filterCategory.Some? && filterCategory.value != "" && filterCategory.value != "All"
  }

  /** The category step: the items of the selected category, in order, or all items. */
  function ByCategory(items: seq<MenuItem>, filterCategory: Option<string>): seq<MenuItem> {
    if CategoryApplies(filterCategory) then
      var c := filterCategory.value;
      Filter(items, (m: MenuItem) => m.category == c)
    else items
  }

  /** The lower-cased name or the lower-cased description contains the lower-cased term. */
  predicate Matches(m: MenuItem, searchTerm: string) {
    Contains(Lower(m.name), Lower(searchTerm)) || Contains(Lower(m.description), Lower(searchTerm))
  }

  /** The search step: an empty term keeps everything. */
  function BySearch(items: seq<MenuItem>, searchTerm: string): seq<MenuItem> {
    if searchTerm == "" then items
    else Filter(items, (m: MenuItem) => Matches(m, searchTerm))
  }

  /** The items both filter steps let through, in catalog order. */
  function Filtered(menu: seq<MenuItem>, filterCategory: Option<string>, searchTerm: string): seq<MenuItem> {
    BySearch(ByCategory(menu, filterCategory), searchTerm)
  }

  /** An item passes both steps: it has the selected category (when one applies) and matches the
      term (when it is non-empty). */
  predicate Selected(m: MenuItem, filterCategory: Option<string>, searchTerm: string) {
    && (CategoryApplies(filterCategory) ==> m.category == filterCategory.value)
    && (searchTerm != "" ==> Matches(m, searchTerm))
  }

  /** The two steps together select exactly the `Selected` items, keeping catalog order. */
  lemma FilteredIsSelection(menu: seq<MenuItem>, filterCategory: Option<string>, searchTerm: string)
    ensures Filtered(menu, filterCategory, searchTerm)
         == Filter(menu, (m: MenuItem) => Selected(m, filterCategory, searchTerm))
  {
    var sel := (m: MenuItem) => Selected(m, filterCategory, searchTerm);
    var search := (m: MenuItem) => Matches(m, searchTerm);
    if CategoryApplies(filterCategory) {
      var c := filterCategory.value;
      var cat := (m: MenuItem) => m.category == c;
      var byCat := Filter(menu, cat);
      if searchTerm == "" {
        FilterCongruent(menu, cat, sel);
      } else {
        FilterCongruent(byCat, search, sel);
        FilterSubsumed(menu, sel, cat);
      }
    } else if searchTerm == "" {
      FilterAll(menu, sel);
    } else {
      FilterCongruent(menu, search, sel);
    }
  }

  /** The sort `sortBy` selects; any other value selects none. */
  datatype SortOrder = PriceAsc | PriceDesc | Popularity | Unsorted

  function ParseSort(sortBy: string): SortOrder {
    if sortBy == "price-asc" then PriceAsc
    else if sortBy == "price-desc" then PriceDesc
    else if sortBy == "popularity" then Popularity
    else Unsorted
  }

  /** The comparators `a.price - b.price`, `b.price - a.price` and
      `b.popularityScore - a.popularityScore` each put `a` first exactly when its key here is
      smaller, so each sort is ascending by this key. */
  function Key(o: SortOrder, m: MenuItem): int {
    match o
    case PriceAsc => m.price
    case PriceDesc => -m.price
    case Popularity => -m.popularityScore
    case Unsorted => 0
  }

  predicate SortedBy(o: SortOrder, s: seq<MenuItem>) {
    forall i, j | 0 <= i < j < |s| :: Key(o, s[i]) <= Key(o, s[j])
  }

  /** `x` placed after every element whose key does not exceed its own. */
  function Insert(o: SortOrder, x: MenuItem, s: seq<MenuItem>): (r: seq<MenuItem>)
    ensures |r| == |s| + 1
    decreases |s|
  {
    if s == [] then [x]
    else if Key(o, s[|s| - 1]) <= Key(o, x) then s + [x]
    else Insert(o, x, s[..|s| - 1]) + [s[|s| - 1]]
  }

  /** What a stable sort ascending by key yields (`Array.prototype.sort` is stable). */
  function StableSort(o: SortOrder, s: seq<MenuItem>): (r: seq<MenuItem>)
    ensures |r| == |s|
    decreases |s|
  {
    if s == [] then [] else Insert(o, s[|s| - 1], StableSort(o, s[..|s| - 1]))
  }

  /** The elements of `s` with key `k`, in order. */
  function SameKey(o: SortOrder, s: seq<MenuItem>, k: int): seq<MenuItem> {
    Filter(s, (m: MenuItem) => Key(o, m) == k)
  }

  /** Inserting where the keys of `s` first exceed `x`'s splits `s` at that point. */
  lemma {:induction false} InsertSplit(o: SortOrder, x: MenuItem, s: seq<MenuItem>, j: nat)
    requires j <= |s|
    requires forall k | j <= k < |s| :: Key(o, s[k]) > Key(o, x)
    requires j == 0 || Key(o, s[j - 1]) <= Key(o, x)
    ensures Insert(o, x, s) == s[..j] + [x] + s[j..]
    decreases |s|
  {
    if |s| == j {
      assert s[..j] == s;
    } else {
      var init := s[..|s| - 1];
      InsertSplit(o, x, init, j);
      assert init[..j] == s[..j];
      assert init[j..] + [s[|s| - 1]] == s[j..];
    }
  }

  lemma {:induction false} InsertMultiset(o: SortOrder, x: MenuItem, s: seq<MenuItem>)
    ensures multiset(Insert(o, x, s)) == multiset(s) + multiset{x}
    decreases |s|
  {
    if s != [] && Key(o, s[|s| - 1]) > Key(o, x) {
      var init := s[..|s| - 1];
      InsertMultiset(o, x, init);
      assert s == init + [s[|s| - 1]];
    }
  }

  /** The sort is a permutation. */
  lemma {:induction false} StableSortMultiset(o: SortOrder, s: seq<MenuItem>)
    ensures multiset(StableSort(o, s)) == multiset(s)
    decreases |s|
  {
    if s != [] {
      var init := s[..|s| - 1];
      StableSortMultiset(o, init);
      InsertMultiset(o, s[|s| - 1], StableSort(o, init));
      assert s == init + [s[|s| - 1]];
    }
  }

  lemma {:induction false} InsertSorted(o: SortOrder, x: MenuItem, s: seq<MenuItem>)
    requires SortedBy(o, s)
    ensures SortedBy(o, Insert(o, x, s))
    decreases |s|
  {
    if s != [] && Key(o, s[|s| - 1]) > Key(o, x) {
      var init := s[..|s| - 1];
      var last := s[|s| - 1];
      InsertSorted(o, x, init);
      InsertMultiset(o, x, init);
      var r := Insert(o, x, init);
      forall i | 0 <= i < |r| ensures Key(o, r[i]) <= Key(o, last) {
        assert r[i] in multiset(init) + multiset{x};
      }
    }
  }

  /** The sort orders by key. */
  lemma {:induction false} StableSortSorted(o: SortOrder, s: seq<MenuItem>)
    ensures SortedBy(o, StableSort(o, s))
    decreases |s|
  {
    if s != [] {
      StableSortSorted(o, s[..|s| - 1]);
      InsertSorted(o, s[|s| - 1], StableSort(o, s[..|s| - 1]));
    }
  }

  lemma {:induction false} InsertSameKey(o: SortOrder, x: MenuItem, s: seq<MenuItem>, k: int)
    ensures SameKey(o, Insert(o, x, s), k) == SameKey(o, s + [x], k)
    decreases |s|
  {
    var p := (m: MenuItem) => Key(o, m) == k;
    if s != [] && Key(o, s[|s| - 1]) > Key(o, x) {
      var init := s[..|s| - 1];
      var last := [s[|s| - 1]];
      assert Filter(last, p) == [] || Filter([x], p) == [];
      calc {
        SameKey(o, Insert(o, x, s), k);
        { FilterAppend(Insert(o, x, init), last, p); }
        Filter(Insert(o, x, init), p) + Filter(last, p);
        { InsertSameKey(o, x, init, k); FilterAppend(init, [x], p); }
        Filter(init, p) + Filter([x], p) + Filter(last, p);
        Filter(init, p) + Filter(last, p) + Filter([x], p);
        { FilterAppend(init, last, p); assert init + last == s; }
        Filter(s, p) + Filter([x], p);
        { FilterAppend(s, [x], p); }
        SameKey(o, s + [x], k);
      }
    }
  }

  /** Stability: the items of any one key keep their relative order. */
  lemma {:induction false} StableSortStable(o: SortOrder, s: seq<MenuItem>, k: int)
    ensures SameKey(o, StableSort(o, s), k) == SameKey(o, s, k)
    decreases |s|
  {
    if s != [] {
      var p := (m: MenuItem) => Key(o, m) == k;
      var init := s[..|s| - 1];
      var last := [s[|s| - 1]];
      StableSortStable(o, init, k);
      InsertSameKey(o, s[|s| - 1], StableSort(o, init), k);
      FilterAppend(StableSort(o, init), last, p);
      FilterAppend(init, last, p);
      assert init + last == s;
    }
  }

  /** With no sort selected every key is equal, and a stable sort changes nothing. */
  lemma {:induction false} StableSortUnsorted(s: seq<MenuItem>)
    ensures StableSort(Unsorted, s) == s
    decreases |s|
  {
    if s != [] {
      StableSortUnsorted(s[..|s| - 1]);
      assert s[..|s| - 1] + [s[|s| - 1]] == s;
    }
  }

  lemma {:induction false} InsertDistinct(o: SortOrder, x: MenuItem, s: seq<MenuItem>)
    requires DistinctIds(s)
    requires forall k | 0 <= k < |s| :: s[k].id != x.id
    ensures DistinctIds(Insert(o, x, s))
    decreases |s|
  {
    if s != [] && Key(o, s[|s| - 1]) > Key(o, x) {
      var init := s[..|s| - 1];
      var last := s[|s| - 1];
      InsertDistinct(o, x, init);
      InsertMultiset(o, x, init);
      var r := Insert(o, x, init);
      forall i | 0 <= i < |r| ensures r[i].id != last.id {
        assert r[i] in multiset(init) + multiset{x};
      }
    }
  }

  lemma {:induction false} StableSortDistinct(o: SortOrder, s: seq<MenuItem>)
    requires DistinctIds(s)
    ensures DistinctIds(StableSort(o, s))
    decreases |s|
  {
    if s != [] {
      var init := s[..|s| - 1];
      var last := s[|s| - 1];
      StableSortDistinct(o, init);
      StableSortMultiset(o, init);
      var r := StableSort(o, init);
      forall i | 0 <= i < |r| ensures r[i].id != last.id {
        assert r[i] in multiset(init);
      }
      InsertDistinct(o, last, r);
    }
  }

  /** The items the menu page lists, in the order it lists them. */
  function MenuView(menu: seq<MenuItem>, filterCategory: Option<string>, searchTerm: string, sortBy: string): seq<MenuItem> {
    StableSort(ParseSort(sortBy), Filtered(menu, filterCategory, searchTerm))
  }

  /** The page lists a permutation of the selected catalog items: an item is listed iff it is in
      the catalog, has the selected category (when a category applies) and matches the term (when
      the term is non-empty). Items with distinct ids stay distinct. */
  lemma MenuViewSelection(menu: seq<MenuItem>, filterCategory: Option<string>, searchTerm: string, sortBy: string)
    ensures multiset(MenuView(menu, filterCategory, searchTerm, sortBy))
         == multiset(Filter(menu, (m: MenuItem) => Selected(m, filterCategory, searchTerm)))
    ensures forall m :: m in MenuView(menu, filterCategory, searchTerm, sortBy)
                    <==> m in menu && Selected(m, filterCategory, searchTerm)
    ensures DistinctIds(menu) ==> DistinctIds(MenuView(menu, filterCategory, searchTerm, sortBy))
  {
    var sel := (m: MenuItem) => Selected(m, filterCategory, searchTerm);
    var f := Filtered(menu, filterCategory, searchTerm);
    FilteredIsSelection(menu, filterCategory, searchTerm);
    StableSortMultiset(ParseSort(sortBy), f);
    forall m | m in menu && Selected(m, filterCategory, searchTerm)
      ensures m in MenuView(menu, filterCategory, searchTerm, sortBy)
    {
      FilterKeeps(menu, sel, m);
      assert m in multiset(f);
    }
    forall m | m in MenuView(menu, filterCategory, searchTerm, sortBy)
      ensures m in menu && Selected(m, filterCategory, searchTerm)
    {
      assert m in multiset(f);
      var i :| 0 <= i < |f| && f[i] == m;
    }
    if DistinctIds(menu) {
      FilterPairwise(menu, sel, (a: MenuItem, b: MenuItem) => a.id != b.id);
      StableSortDistinct(ParseSort(sortBy), f);
    }
  }

  /** The listed order: non-decreasing price for "price-asc", non-increasing price for
      "price-desc", non-increasing popularity for "popularity"; any other key keeps catalog order.
      Items that tie keep their catalog order. */
  lemma MenuViewOrder(menu: seq<MenuItem>, filterCategory: Option<string>, searchTerm: string, sortBy: string)
    ensures var r := MenuView(menu, filterCategory, searchTerm, sortBy);
      && (sortBy == "price-asc" ==> forall i, j | 0 <= i < j < |r| :: r[i].price <= r[j].price)
      && (sortBy == "price-desc" ==> forall i, j | 0 <= i < j < |r| :: r[i].price >= r[j].price)
      && (sortBy == "popularity" ==>
            forall i, j | 0 <= i < j < |r| :: r[i].popularityScore >= r[j].popularityScore)
      && (ParseSort(sortBy) == Unsorted ==> r == Filtered(menu, filterCategory, searchTerm))
    ensures forall k :: SameKey(ParseSort(sortBy), MenuView(menu, filterCategory, searchTerm, sortBy), k)
                     == SameKey(ParseSort(sortBy), Filtered(menu, filterCategory, searchTerm), k)
  {
    var o := ParseSort(sortBy);
    var f := Filtered(menu, filterCategory, searchTerm);
    StableSortSorted(o, f);
    forall k ensures SameKey(o, StableSort(o, f), k) == SameKey(o, f, k) {
      StableSortStable(o, f, k);
    }
    if o == Unsorted {
      StableSortUnsorted(f);
    }
  }

  /** One step of insertion sort: `a[i]` moves left past every element of the sorted prefix
      whose key exceeds its own. */
  method InsertInPlace(a: array<MenuItem>, i: nat, o: SortOrder)
    requires i < a.Length
    modifies a
    ensures a[..i + 1] == Insert(o, old(a[i]), old(a[..i]))
    ensures forall k | i < k < a.Length :: a[k] == old(a[k])
  {
    ghost var sorted := a[..i];
    var x := a[i];
    var j := i;
    while j > 0 && Key(o, a[j - 1]) > Key(o, x)
      invariant 0 <= j <= i
      invariant forall k | 0 <= k < j :: a[k] == sorted[k]
      invariant forall k | j < k <= i :: a[k] == sorted[k - 1]
      invariant forall k | i < k < a.Length :: a[k] == old(a[k])
      invariant forall k | j <= k < i :: Key(o, sorted[k]) > Key(o, x)
    {
      a[j] := a[j - 1];
      j := j - 1;
    }
    a[j] := x;
    InsertSplit(o, x, sorted, j);
    ShiftedIsSplit(a[..i + 1], sorted, x, j);
  }

  /** A sequence that agrees with `s` before `j`, holds `x` at `j` and `s` shifted by one
      after it is `s` with `x` inserted at `j`. */
  lemma ShiftedIsSplit(b: seq<MenuItem>, s: seq<MenuItem>, x: MenuItem, j: nat)
    requires j <= |s| && |b| == |s| + 1
    requires forall k | 0 <= k < j :: b[k] == s[k]
    requires b[j] == x
    requires forall k | j < k < |b| :: b[k] == s[k - 1]
    ensures b == s[..j] + [x] + s[j..]
  {
  }

  /** Sorting one more element of a prefix inserts it into the sorted prefix. */
  lemma StableSortPrefix(o: SortOrder, s: seq<MenuItem>, i: nat)
    requires i < |s|
    ensures StableSort(o, s[..i + 1]) == Insert(o, s[i], StableSort(o, s[..i]))
  {
    assert s[..i + 1][..i] == s[..i];
  }

  /** Insertion sort in place, ascending by key; equal keys keep their order. */
  method SortInPlace(a: array<MenuItem>, o: SortOrder)
    modifies a
    ensures a[..] == StableSort(o, old(a[..]))
  {
    ghost var orig := a[..];
    var i := 0;
    while i < a.Length
      invariant 0 <= i <= a.Length
      invariant a[..i] == StableSort(o, orig[..i])
      invariant forall k | i <= k < a.Length :: a[k] == orig[k]
    {
      StableSortPrefix(o, orig, i);
      InsertInPlace(a, i, o);
      i := i + 1;
    }
    assert orig[..a.Length] == orig;
  }

  /** `renderMenu`'s item pipeline. With no category filter and no search term the items are the
      catalog array itself, which the sort then reorders in place; otherwise each filter step
      makes a new array and the catalog is left as it was. */
  method RenderMenu(menu: array<MenuItem>, filterCategory: Option<string>, searchTerm: string, sortBy: string)
    returns (items: array<MenuItem>)
    modifies menu
    ensures items[..] == MenuView(old(menu[..]), filterCategory, searchTerm, sortBy)
    ensures !CategoryApplies(filterCategory) && searchTerm == "" ==> items == menu
    ensures CategoryApplies(filterCategory) || searchTerm != "" ==> fresh(items) && menu[..] == old(menu[..])
  {
    items := menu;
    if CategoryApplies(filterCategory) {
      var kept := ByCategory(items[..], filterCategory);
      items := new MenuItem[|kept|](k requires 0 <= k < |kept| => kept[k]);
      assert items[..] == kept;
    }
    if searchTerm != "" {
      var kept := BySearch(items[..], searchTerm);
      items := new MenuItem[|kept|](k requires 0 <= k < |kept| => kept[k]);
      assert items[..] == kept;
    }
    var o := ParseSort(sortBy);
    if o != Unsorted {
      SortInPlace(items, o);
    } else {
      StableSortUnsorted(items[..]);
    }
  }
}
