/**
 The documentation sidebar: dissolving the categories without a page of their own, and putting
 README pages first at every level.
 */
module Sidebar {
  // A page (with an id); an entry of another kind, or a category without a list of items; or a
  // category with one.  linked: it has its own page.
  datatype Item =
    | Page(id: string)
    | Other(name: string)
    | Category(name: string, linked: bool, items: seq<Item>)

  // ------------------------------------------------------------------ flattening

  function FlattenCategories(items: seq<Item>): seq<Item> {
    if items == [] then []
    else
      var rest := FlattenCategories(items[1..]);
      match items[0]
      case Category(name, linked, children) =>
        if linked then [Category(name, linked, FlattenCategories(children))] + rest
        else FlattenCategories(children) + rest
      case leaf => [leaf] + rest
  }

  // An entry a reader sees, and the linked categories above it
  datatype Entry = Leaf(above: seq<string>, item: Item) | Section(above: seq<string>, name: string)

  // The entries of a tree, in order
  function Entries(above: seq<string>, items: seq<Item>): seq<Entry>
    decreases items
  {
    if items == [] then []
    else
      var rest := Entries(above, items[1..]);
      match items[0]
      case Category(name, linked, children) =>
        if linked then [Section(above, name)] + Entries(above + [name], children) + rest
        else Entries(above, children) + rest
      case leaf => [Leaf(above, leaf)] + rest
  }

  // No category without a link has items, at any depth
  predicate Flat(items: seq<Item>) {
    items == [] || (FlatItem(items[0]) && Flat(items[1..]))
  }

  predicate FlatItem(item: Item) {
    match item
    case Category(_, linked, children) => linked && Flat(children)
    case _ => true
  }

  lemma {:induction false} EntriesOfConcat(above: seq<string>, a: seq<Item>, b: seq<Item>)
    ensures Entries(above, a + b) == Entries(above, a) + Entries(above, b)
  {
    if a == [] {
      assert a + b == b;
    } else {
      assert (a + b)[1..] == a[1..] + b;
      EntriesOfConcat(above, a[1..], b);
    }
  }

  lemma {:induction false} FlatOfConcat(a: seq<Item>, b: seq<Item>)
    ensures Flat(a + b) <==> Flat(a) && Flat(b)
  {
    if a == [] {
      assert a + b == b;
    } else {
      assert (a + b)[1..] == a[1..] + b;
      FlatOfConcat(a[1..], b);
    }
  }

  // Flattening keeps the entries, their order and the linked categories above each
  lemma {:induction false} FlattenKeepsEntries(above: seq<string>, items: seq<Item>)
    ensures Entries(above, FlattenCategories(items)) == Entries(above, items)
    decreases items
  {
    if items != [] {
      var rest := FlattenCategories(items[1..]);
      FlattenKeepsEntries(above, items[1..]);
      match items[0]
      case Category(name, linked, children) =>
        FlattenKeepsEntries(above + [name], children);
        FlattenKeepsEntries(above, children);
        if linked {
          EntriesOfConcat(above, [Category(name, linked, FlattenCategories(children))], rest);
        } else {
          EntriesOfConcat(above, FlattenCategories(children), rest);
        }
      case leaf => EntriesOfConcat(above, [leaf], rest);
    }
  }

  lemma {:induction false} FlattenIsFlat(items: seq<Item>)
    ensures Flat(FlattenCategories(items))
  {
    if items != [] {
      var rest := FlattenCategories(items[1..]);
      FlattenIsFlat(items[1..]);
      match items[0]
      case Category(name, linked, children) =>
        FlattenIsFlat(children);
        if linked {
          FlatOfConcat([Category(name, linked, FlattenCategories(children))], rest);
        } else {
          FlatOfConcat(FlattenCategories(children), rest);
        }
      case leaf => FlatOfConcat([leaf], rest);
    }
  }

  // It changes nothing exactly when there is nothing to dissolve
  lemma {:induction false} FlattenFixesFlat(items: seq<Item>)
    requires Flat(items)
    ensures FlattenCategories(items) == items
  {
    if items != [] {
      FlattenFixesFlat(items[1..]);
      match items[0]
      case Category(_, _, children) => FlattenFixesFlat(children);
      case _ =>
    }
  }

  lemma FlattenIsIdempotent(items: seq<Item>)
    ensures FlattenCategories(FlattenCategories(items)) == FlattenCategories(items)
    ensures FlattenCategories(items) == items <==> Flat(items)
  {
    FlattenIsFlat(items);
    FlattenFixesFlat(FlattenCategories(items));
    if Flat(items) { FlattenFixesFlat(items); }
  }

  // ------------------------------------------------------------------ sorting

  predicate EndsWith(s: string, suffix: string) {
    |suffix| <= |s| && s[|s| - |suffix|..] == suffix
  }

  predicate IsReadme(item: Item) {
    item.Page? && (EndsWith(item.id, "/README") || item.id == "README")
  }

  // READMEs are the page README, and the pages that are called so in some folder
  lemma ReadmePages(item: Item)
    ensures IsReadme(item) <==>
      item.Page? && (item.id == "README" || exists folder :: item.id == folder + "/README")
  {
    if item.Page? {
      if EndsWith(item.id, "/README") {
        var folder := item.id[..|item.id| - 7];
        assert item.id == folder + "/README";
      }
      if folder :| item.id == folder + "/README" {
        assert item.id[|folder|..] == "/README";
      }
    }
  }

  function Compare(a: Item, b: Item): int {
    if IsReadme(a) && !IsReadme(b) then -1
    else if !IsReadme(a) && IsReadme(b) then 1
    else 0
  }

  // A stable sort by Compare: each item goes before the first one that is not less
  function Place(item: Item, sorted: seq<Item>): seq<Item> {
    if sorted == [] || Compare(item, sorted[0]) <= 0 then [item] + sorted
    else [sorted[0]] + Place(item, sorted[1..])
  }

  function StableSort(items: seq<Item>): seq<Item> {
    if items == [] then [] else Place(items[0], StableSort(items[1..]))
  }

  function Readmes(items: seq<Item>): seq<Item> {
    if items == [] then [] else (if IsReadme(items[0]) then [items[0]] else []) + Readmes(items[1..])
  }

  function Others(items: seq<Item>): seq<Item> {
    if items == [] then [] else (if IsReadme(items[0]) then [] else [items[0]]) + Others(items[1..])
  }

  // Any ordered sequence that keeps the order of items that compare equal is this one
  lemma {:induction false} SortedIsReadmesFirst(items: seq<Item>)
    requires forall i, j :: 0 <= i < j < |items| ==> Compare(items[i], items[j]) <= 0
    ensures items == Readmes(items) + Others(items)
  {
    if items != [] {
      SortedIsReadmesFirst(items[1..]);
      if !IsReadme(items[0]) {
        NoReadmes(items);
      }
    }
  }

  lemma {:induction false} NoReadmes(items: seq<Item>)
    requires forall i :: 0 <= i < |items| ==> !IsReadme(items[i])
    ensures Readmes(items) == []
  {
    if items != [] { NoReadmes(items[1..]); }
  }

  lemma {:induction false} PlaceIsStable(item: Item, r: seq<Item>, o: seq<Item>)
    requires (forall x :: x in r ==> IsReadme(x)) && (forall x :: x in o ==> !IsReadme(x))
    ensures Place(item, r + o) == if IsReadme(item) then [item] + (r + o) else r + ([item] + o)
  {
    if r == [] {
      assert r + o == o && r + ([item] + o) == [item] + o;
    } else if !IsReadme(item) {
      assert (r + o)[1..] == r[1..] + o;
      PlaceIsStable(item, r[1..], o);
    }
  }

  lemma {:induction false} Partition(items: seq<Item>)
    ensures forall x :: x in Readmes(items) ==> IsReadme(x)
    ensures forall x :: x in Others(items) ==> !IsReadme(x)
    ensures |Readmes(items)| + |Others(items)| == |items|
  {
    if items != [] { Partition(items[1..]); }
  }

  // One level: the READMEs in their order, then the other items in theirs
  lemma {:induction false} StableSortIsReadmesFirst(items: seq<Item>)
    ensures StableSort(items) == Readmes(items) + Others(items)
  {
    if items != [] {
      var x, r, o := items[0], Readmes(items[1..]), Others(items[1..]);
      StableSortIsReadmesFirst(items[1..]);
      Partition(items[1..]);
      PlaceIsStable(x, r, o);
      PartitionOfHead(items);
      assert [x] + (r + o) == ([x] + r) + o;
    }
  }

  lemma PartitionOfHead(items: seq<Item>)
    requires items != []
    ensures Readmes(items) == (if IsReadme(items[0]) then [items[0]] + Readmes(items[1..]) else Readmes(items[1..]))
    ensures Others(items) == (if IsReadme(items[0]) then Others(items[1..]) else [items[0]] + Others(items[1..]))
  {
  }

  function SortChildren(items: seq<Item>): seq<Item> {
    if items == [] then [] else [SortItem(items[0])] + SortChildren(items[1..])
  }

  function SortItem(item: Item): Item {
    match item
    case Category(name, linked, children) => Category(name, linked, StableSort(SortChildren(children)))
    case leaf => leaf
  }

  function SortReadmeFirst(items: seq<Item>): seq<Item> {
    StableSort(SortChildren(items))
  }

  // READMEs come first, here and at every level below
  predicate ReadmesFirst(items: seq<Item>) {
    items == Readmes(items) + Others(items) && ReadmesFirstBelow(items)
  }

  predicate ReadmesFirstBelow(items: seq<Item>) {
    items == [] || (ReadmesFirstIn(items[0]) && ReadmesFirstBelow(items[1..]))
  }

  predicate ReadmesFirstIn(item: Item) {
    match item
    case Category(_, _, children) => children == Readmes(children) + Others(children) && ReadmesFirstBelow(children)
    case _ => true
  }

  // Sorting the children changes neither which items are READMEs nor their order
  lemma {:induction false} ChildrenKeepLevel(items: seq<Item>)
    ensures Readmes(SortChildren(items)) == Readmes(items)
    ensures Others(SortChildren(items)) == SortChildren(Others(items))
  {
    if items != [] {
      ChildrenKeepLevel(items[1..]);
      var sorted := SortChildren(items);
      assert sorted[1..] == SortChildren(items[1..]);
      PartitionOfHead(items);
      PartitionOfHead(sorted);
      if !IsReadme(items[0]) {
        assert ([items[0]] + Others(items[1..]))[1..] == Others(items[1..]);
      }
    }
  }

  // At each level, the READMEs in their order, then the other items in theirs, themselves sorted
  lemma SortIsStable(items: seq<Item>)
    ensures SortReadmeFirst(items) == Readmes(items) + SortChildren(Others(items))
  {
    StableSortIsReadmesFirst(SortChildren(items));
    ChildrenKeepLevel(items);
  }

  lemma {:induction false} PlaceKeepsEntries(above: seq<string>, item: Item, sorted: seq<Item>)
    ensures multiset(Entries(above, Place(item, sorted))) == multiset(Entries(above, [item]))
      + multiset(Entries(above, sorted))
  {
    if sorted == [] || Compare(item, sorted[0]) <= 0 {
      EntriesOfConcat(above, [item], sorted);
    } else {
      PlaceKeepsEntries(above, item, sorted[1..]);
      EntriesOfConcat(above, [sorted[0]], Place(item, sorted[1..]));
      EntriesOfConcat(above, [sorted[0]], sorted[1..]);
      assert [sorted[0]] + sorted[1..] == sorted;
    }
  }

  lemma {:induction false} StableSortKeepsEntries(above: seq<string>, items: seq<Item>)
    ensures multiset(Entries(above, StableSort(items))) == multiset(Entries(above, items))
  {
    if items != [] {
      StableSortKeepsEntries(above, items[1..]);
      PlaceKeepsEntries(above, items[0], StableSort(items[1..]));
      EntriesOfConcat(above, [items[0]], items[1..]);
      assert [items[0]] + items[1..] == items;
    }
  }

  // The entries of one category are its own and those of its items
  lemma EntriesOfCategory(above: seq<string>, c: Item)
    requires c.Category?
    ensures Entries(above, [c])
      == if c.linked then [Section(above, c.name)] + Entries(above + [c.name], c.items) else Entries(above, c.items)
  {
    assert [c][1..] == [] && Entries(above, []) == [];
  }

  lemma {:induction false} SortChildrenKeepsEntries(above: seq<string>, items: seq<Item>)
    ensures multiset(Entries(above, SortChildren(items))) == multiset(Entries(above, items))
    decreases items
  {
    if items != [] {
      SortChildrenKeepsEntries(above, items[1..]);
      SortItemKeepsEntries(above, items[0]);
      EntriesOfConcat(above, [items[0]], items[1..]);
      EntriesOfConcat(above, [SortItem(items[0])], SortChildren(items[1..]));
      assert [items[0]] + items[1..] == items;
    }
  }

  lemma {:induction false} SortItemKeepsEntries(above: seq<string>, item: Item)
    ensures multiset(Entries(above, [SortItem(item)])) == multiset(Entries(above, [item]))
    decreases item
  {
    if item.Category? {
      var below := if item.linked then above + [item.name] else above;
      SortChildrenKeepsEntries(below, item.items);
      StableSortKeepsEntries(below, SortChildren(item.items));
      EntriesOfCategory(above, item);
      EntriesOfCategory(above, SortItem(item));
    }
  }

  // Sorting is a permutation of the entries that leaves each below the same categories
  lemma SortKeepsEntries(above: seq<string>, items: seq<Item>)
    ensures multiset(Entries(above, SortReadmeFirst(items))) == multiset(Entries(above, items))
  {
    SortChildrenKeepsEntries(above, items);
    StableSortKeepsEntries(above, SortChildren(items));
  }

  lemma {:induction false} PlaceKeepsBelow(item: Item, sorted: seq<Item>)
    ensures ReadmesFirstBelow(Place(item, sorted)) <==> ReadmesFirstIn(item) && ReadmesFirstBelow(sorted)
    ensures Flat(Place(item, sorted)) <==> FlatItem(item) && Flat(sorted)
  {
    if sorted != [] && Compare(item, sorted[0]) > 0 {
      PlaceKeepsBelow(item, sorted[1..]);
      assert Place(item, sorted)[1..] == Place(item, sorted[1..]);
    } else {
      assert ([item] + sorted)[1..] == sorted;
    }
  }

  lemma {:induction false} StableSortKeepsBelow(items: seq<Item>)
    ensures ReadmesFirstBelow(StableSort(items)) <==> ReadmesFirstBelow(items)
    ensures Flat(StableSort(items)) <==> Flat(items)
  {
    if items != [] {
      StableSortKeepsBelow(items[1..]);
      PlaceKeepsBelow(items[0], StableSort(items[1..]));
    }
  }

  lemma {:induction false} SortedIsPartitioned(items: seq<Item>)
    ensures var sorted := StableSort(items); sorted == Readmes(sorted) + Others(sorted)
  {
    StableSortIsReadmesFirst(items);
    Partition(items);
    PartitionOfParts(Readmes(items), Others(items));
  }

  lemma {:induction false} PartitionOfParts(r: seq<Item>, o: seq<Item>)
    requires (forall x :: x in r ==> IsReadme(x)) && (forall x :: x in o ==> !IsReadme(x))
    ensures Readmes(r + o) == r && Others(r + o) == o
  {
    if r != [] {
      assert (r + o)[1..] == r[1..] + o;
      PartitionOfParts(r[1..], o);
    } else if o != [] {
      assert r + o == o && [] + o[1..] == o[1..];
      PartitionOfParts([], o[1..]);
    }
  }

  lemma {:induction false} SortChildrenSorts(items: seq<Item>)
    ensures ReadmesFirstBelow(SortChildren(items))
    ensures Flat(SortChildren(items)) <==> Flat(items)
  {
    if items != [] {
      SortChildrenSorts(items[1..]);
      assert SortChildren(items)[1..] == SortChildren(items[1..]);
      match items[0]
      case Category(_, _, children) =>
        SortChildrenSorts(children);
        StableSortKeepsBelow(SortChildren(children));
        SortedIsPartitioned(SortChildren(children));
      case _ =>
    }
  }

  // Sorting puts READMEs first everywhere, and dissolves or creates nothing
  lemma SortSorts(items: seq<Item>)
    ensures ReadmesFirst(SortReadmeFirst(items))
    ensures Flat(SortReadmeFirst(items)) <==> Flat(items)
  {
    SortChildrenSorts(items);
    StableSortKeepsBelow(SortChildren(items));
    SortedIsPartitioned(SortChildren(items));
  }

  lemma {:induction false} SortChildrenFixes(items: seq<Item>)
    requires ReadmesFirstBelow(items)
    ensures SortChildren(items) == items
  {
    if items != [] {
      SortChildrenFixes(items[1..]);
      match items[0]
      case Category(_, _, children) =>
        SortChildrenFixes(children);
        StableSortIsReadmesFirst(children);
      case _ =>
    }
  }

  // It changes nothing exactly when READMEs already come first everywhere
  lemma SortIsIdempotent(items: seq<Item>)
    ensures SortReadmeFirst(SortReadmeFirst(items)) == SortReadmeFirst(items)
    ensures SortReadmeFirst(items) == items <==> ReadmesFirst(items)
  {
    var sorted := SortReadmeFirst(items);
    SortSorts(items);
    SortChildrenFixes(sorted);
    StableSortIsReadmesFirst(sorted);
    if ReadmesFirst(items) {
      SortChildrenFixes(items);
      StableSortIsReadmesFirst(items);
    }
  }

  // ------------------------------------------------------------------ the sidebar

  function SidebarItems(items: seq<Item>): seq<Item> {
    SortReadmeFirst(FlattenCategories(items))
  }

  // The sidebar has the entries of the tree, each below the same linked categories; it is flat
  // and has READMEs first; generating it again changes nothing
  lemma SidebarIsNormal(items: seq<Item>)
    ensures multiset(Entries([], SidebarItems(items))) == multiset(Entries([], items))
    ensures Flat(SidebarItems(items)) && ReadmesFirst(SidebarItems(items))
    ensures SidebarItems(SidebarItems(items)) == SidebarItems(items)
    ensures SidebarItems(items) == items <==> Flat(items) && ReadmesFirst(items)
  {
    var flat := FlattenCategories(items);
    FlattenKeepsEntries([], items);
    SortKeepsEntries([], flat);
    FlattenIsFlat(items);
    SortSorts(flat);
    FlattenFixesFlat(SidebarItems(items));
    SortIsIdempotent(flat);
    if Flat(items) && ReadmesFirst(items) {
      FlattenFixesFlat(items);
      SortIsIdempotent(items);
    }
  }

  // The order of the two matters: sorting first can leave a README after another page
  lemma FlattenMustComeFirst()
    ensures exists items :: !ReadmesFirst(FlattenCategories(SortReadmeFirst(items)))
  {
    var page, readme := Page("a"), Page("README");
    var group := Category("group", false, [readme]);
    var items := [page, group];
    assert IsReadme(readme) && !IsReadme(page);
    assert [readme][1..] == [] && StableSort([readme]) == [readme] && SortChildren([readme]) == [readme];
    assert items[1..] == [group] && [group][1..] == [];
    assert SortChildren([group]) == [group];
    assert SortChildren(items) == [SortItem(page)] + SortChildren(items[1..]) == items;
    assert StableSort([group]) == [group] && StableSort(items) == items;
    assert FlattenCategories([readme]) == [readme] && FlattenCategories([group]) == [readme];
    var result := FlattenCategories(items);
    assert result == [page, readme];
    assert result[1..] == [readme] && Readmes([readme]) == [readme] + Readmes([readme][1..]);
    assert Readmes(result) == [] + Readmes(result[1..]);
    assert Readmes(result)[0] == readme;
    assert !ReadmesFirst(FlattenCategories(SortReadmeFirst(items)));
  }
}
