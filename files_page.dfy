/** The client-side file tree of the Files page: the path walk to the current
    level, the search filter, the flattened starred and trash views, folder
    creation, the star/trash toggle, permanent deletion and breadcrumb
    navigation. Items are compared by their string id. */
module FilesPage {
  import opened Api
  import Seqs
  import Strings

  /** A file or folder of the page's state. `hasChildren` says whether the
      item carries a `children` array at all (folders do, uploaded files do
      not); JavaScript treats an empty array as present. */
  datatype Item = Item(
    id: string,
    name: string,
    path: string,
    size: int,
    isFolder: bool,
    parentId: Option<string>,
    isStarred: bool,
    isTrash: bool,
    hasChildren: bool,
    children: seq<Item>)

  /** `item.children || []`. */
  function Kids(it: Item): seq<Item> {
    if it.hasChildren then it.children else []
  }

  predicate IsFolderWithId(it: Item, id: string) {
    it.id == id && it.isFolder
  }

  /** `items.find(item => item._id === id && item.isFolder)`. */
  function FindFolder(items: seq<Item>, id: string): (r: int)
    ensures -1 <= r < |items|
    ensures r >= 0 ==> IsFolderWithId(items[r], id)
    ensures r >= 0 ==> forall j :: 0 <= j < r ==> !IsFolderWithId(items[j], id)
    ensures r == -1 ==> forall j :: 0 <= j < |items| ==> !IsFolderWithId(items[j], id)
  {
    Seqs.FirstIndex(items, (it: Item) => IsFolderWithId(it, id))
  }

  // ---------------------------------------------------------------------
  // Path walks
  // ---------------------------------------------------------------------

  /** The level the walk of `getCurrentItems` ends at: each path id moves
      into the first folder with that id when it has a children array; an
      unmatched id leaves the walk where it is. */
  function Descend(items: seq<Item>, path: seq<string>): seq<Item>
    decreases |path|
  {
    if path == [] then items
    else
      var k := FindFolder(items, path[0]);
      Descend(if k >= 0 && items[k].hasChildren then items[k].children else items, path[1..])
  }

  /** `getFolderFromPath`: the folder the whole path leads to, or `None` as
      soon as one id has no folder at its level. */
  function FolderAt(items: seq<Item>, path: seq<string>): (r: Option<Item>)
    ensures r.Some? ==> path != [] && r.value.isFolder && r.value.id == path[|path| - 1]
    decreases |path|
  {
    if path == [] then None
    else
      var k := FindFolder(items, path[0]);
      if k == -1 then None
      else if |path| == 1 then Some(items[k])
      else FolderAt(Kids(items[k]), path[1..])
  }

  /** When the path leads to a folder with a children array, the walk of
      `getCurrentItems` ends at that folder's children. */
  lemma {:induction false} WalkReachesFolder(items: seq<Item>, path: seq<string>, f: Item)
    requires FolderAt(items, path) == Some(f) && f.hasChildren
    ensures Descend(items, path) == f.children
    decreases |path|
  {
    var k := FindFolder(items, path[0]);
    if |path| == 1 {
      assert path[1..] == [];
    } else {
      assert items[k].hasChildren;
      WalkReachesFolder(items[k].children, path[1..], f);
    }
  }

  /** `getFolderFromPath` extends along a path one id at a time: the folder
      `p + [id]` names is the first folder with `id` among the items of the
      root (for an empty `p`) or among the children of the folder `p`
      names; there is none when no such folder exists, and none once `p`
      names no folder. So every folder a path spells out is found. */
  lemma {:induction false} FolderAtSnoc(items: seq<Item>, p: seq<string>, id: string)
    ensures p == [] ==>
      var k := FindFolder(items, id);
      FolderAt(items, p + [id]) == (if k >= 0 then Some(items[k]) else None)
    ensures p != [] && FolderAt(items, p).Some? ==>
      var lvl := Kids(FolderAt(items, p).value);
      var k := FindFolder(lvl, id);
      FolderAt(items, p + [id]) == (if k >= 0 then Some(lvl[k]) else None)
    ensures p != [] && FolderAt(items, p).None? ==> FolderAt(items, p + [id]).None?
    decreases |p|
  {
    if p == [] {
      assert p + [id] == [id];
    } else {
      var q := p + [id];
      assert q[0] == p[0] && q[1..] == p[1..] + [id];
      var k0 := FindFolder(items, p[0]);
      if k0 >= 0 {
        FolderAtSnoc(Kids(items[k0]), p[1..], id);
        if |p| == 1 {
          assert p[1..] == [];
        }
      }
    }
  }

  /** The two walks part ways on an unmatched id: `getFolderFromPath` gives
      up, `getCurrentItems` ignores the id and stays at the level. */
  lemma UnmatchedIdContrast(items: seq<Item>, path: seq<string>)
    requires path != [] && forall j :: 0 <= j < |items| ==> !IsFolderWithId(items[j], path[0])
    ensures FolderAt(items, path) == None
    ensures Descend(items, path) == Descend(items, path[1..])
  {
    assert FindFolder(items, path[0]) == -1;
  }

  /** What `getCurrentItems` shows of an item: not trashed, and its name
      contains the query, both lowercased. */
  predicate Shown(it: Item, query: string) {
    !it.isTrash && Strings.Includes(Strings.ToLower(it.name), Strings.ToLower(query))
  }

  function Visible(items: seq<Item>, query: string): (r: seq<Item>)
    ensures forall k :: 0 <= k < |r| ==> r[k] in items && Shown(r[k], query)
    ensures forall k :: 0 <= k < |items| && Shown(items[k], query) ==> items[k] in r
  {
    Seqs.Filter(items, (it: Item) => Shown(it, query))
  }

  /** With an empty query every non-trashed item of the level is shown. */
  lemma EmptyQueryShowsAll(items: seq<Item>)
    ensures forall k :: 0 <= k < |items| && !items[k].isTrash ==> items[k] in Visible(items, "")
  {
    forall k | 0 <= k < |items| && !items[k].isTrash
      ensures Shown(items[k], "")
    {
      Strings.IncludesEmpty(Strings.ToLower(items[k].name));
    }
  }

  /** `getFolderFromPath(pathArray, items)`. */
  method GetFolderFromPath(pathArray: seq<string>, items: seq<Item>) returns (r: Option<Item>)
    ensures r == FolderAt(items, pathArray)
  {
    if |pathArray| == 0 {
      return None;
    }
    var current := items;
    var i := 0;
    while i < |pathArray|
      invariant 0 <= i <= |pathArray|
      invariant FolderAt(current, pathArray[i..]) == FolderAt(items, pathArray)
    {
      assert pathArray[i..][0] == pathArray[i] && pathArray[i..][1..] == pathArray[i + 1..];
      var k := FindFolder(current, pathArray[i]);
      if k == -1 {
        return None;
      }
      if i == |pathArray| - 1 {
        return Some(current[k]);
      }
      current := Kids(current[k]);
      i := i + 1;
    }
    return None;
  }

  // ---------------------------------------------------------------------
  // Flattened views
  // ---------------------------------------------------------------------

  /** `getAllItems`: every item in pre-order, each followed by the items of
      its children array. */
  function FlattenAll(items: seq<Item>): seq<Item>
    decreases items
  {
    if items == [] then [] else FlattenOne(items[0]) + FlattenAll(items[1..])
  }

  function FlattenOne(it: Item): seq<Item>
    decreases it
  {
    [it] + (if it.hasChildren then FlattenAll(it.children) else [])
  }

  lemma {:induction false} FlattenAllConcat(a: seq<Item>, b: seq<Item>)
    ensures FlattenAll(a + b) == FlattenAll(a) + FlattenAll(b)
  {
    if a == [] {
      assert a + b == b;
    } else {
      assert (a + b)[0] == a[0] && (a + b)[1..] == a[1..] + b;
      FlattenAllConcat(a[1..], b);
    }
  }

  /** Every top-level item is in the flattening, and the flattening is
      closed under taking children: with any item it holds each item of
      that item's children array, so it holds every descendant. */
  lemma {:induction false} FlattenContainsLevels(items: seq<Item>)
    ensures forall k :: 0 <= k < |items| ==> items[k] in FlattenAll(items)
    ensures forall k, j :: 0 <= k < |items| && 0 <= j < |Kids(items[k])| ==> Kids(items[k])[j] in FlattenAll(items)
    ensures forall x, j :: x in FlattenAll(items) && 0 <= j < |Kids(x)| ==> Kids(x)[j] in FlattenAll(items)
    decreases items
  {
    if items != [] {
      var h, rest := items[0], items[1..];
      FlattenContainsLevels(rest);
      if h.hasChildren {
        FlattenContainsLevels(h.children);
      }
      forall k | 0 < k < |items| ensures items[k] == rest[k - 1] { }
      assert FlattenAll(items) == FlattenOne(h) + FlattenAll(rest);
      forall x, j | x in FlattenAll(items) && 0 <= j < |Kids(x)|
        ensures Kids(x)[j] in FlattenAll(items)
      {
        if x == h {
          assert Kids(x)[j] in FlattenOne(h);
        } else if x in FlattenAll(rest) {
          assert Kids(x)[j] in FlattenAll(rest);
        } else {
          assert x in FlattenAll(h.children);
          assert Kids(x)[j] in FlattenOne(h);
        }
      }
    }
  }

  /** `getStarredItems`: starred and not trashed, at any depth. */
  function StarredItems(files: seq<Item>): (r: seq<Item>)
    ensures forall x :: x in r <==> x in FlattenAll(files) && x.isStarred && !x.isTrash
  {
    Seqs.Filter(FlattenAll(files), (it: Item) => it.isStarred && !it.isTrash)
  }

  /** `getTrashItems`: trashed, at any depth. */
  function TrashItems(files: seq<Item>): (r: seq<Item>)
    ensures forall x :: x in r <==> x in FlattenAll(files) && x.isTrash
  {
    Seqs.Filter(FlattenAll(files), (it: Item) => it.isTrash)
  }

  /** No item is shown in both the starred and the trash view. */
  lemma StarredAndTrashDisjoint(files: seq<Item>)
    ensures forall x :: x in StarredItems(files) ==> x !in TrashItems(files)
  {
    var s := StarredItems(files);
    forall x | x in s ensures !x.isTrash {
      var k :| 0 <= k < |s| && s[k] == x;
    }
    var t := TrashItems(files);
    forall x | x in t ensures x.isTrash {
      var k :| 0 <= k < |t| && t[k] == x;
    }
  }

  /** `getAllItems`, accumulating with `push` and `concat` over `forEach`. */
  method GetAllItems(items: seq<Item>) returns (allItems: seq<Item>)
    ensures allItems == FlattenAll(items)
    decreases items
  {
    allItems := [];
    var i := 0;
    while i < |items|
      invariant 0 <= i <= |items|
      invariant allItems == FlattenAll(items[..i])
    {
      var item := items[i];
      allItems := allItems + [item];
      if item.hasChildren {
        var sub := GetAllItems(item.children);
        allItems := allItems + sub;
      }
      assert items[..i + 1] == items[..i] + [item];
      FlattenAllConcat(items[..i], [item]);
      assert FlattenAll([item]) == FlattenOne(item) by {
        assert [item][1..] == [];
      }
      i := i + 1;
    }
    assert items[..i] == items;
  }

  predicate IsFolderItem(it: Item) {
    it.isFolder
  }

  predicate IsPlainFile(it: Item) {
    !it.isFolder
  }

  /** `getItemCounts`: the folder and file counts of a level add up to its
      length. */
  function ItemCounts(items: seq<Item>): (r: (nat, nat))
    ensures r.0 + r.1 == |items|
  {
    CountsPartition(items);
    (|Seqs.Filter(items, IsFolderItem)|, |Seqs.Filter(items, IsPlainFile)|)
  }

  lemma {:induction false} CountsPartition(items: seq<Item>)
    ensures |Seqs.Filter(items, IsFolderItem)| + |Seqs.Filter(items, IsPlainFile)| == |items|
  {
    if items != [] {
      CountsPartition(items[1..]);
    }
  }

  // ---------------------------------------------------------------------
  // Folder creation
  // ---------------------------------------------------------------------

  /** The folder `handleCreateFolder` builds; `newId` stands for the
      `folder-${Date.now()}` id. */
  function NewFolder(newId: string, name: string, currentPath: seq<string>): Item {
    var n := Strings.Trim(name);
    Item(newId, n, "/" + Strings.Join(currentPath, "/") + "/" + n, 0, true,
         if |currentPath| > 0 then Some(currentPath[|currentPath| - 1]) else None,
         false, false, true, [])
  }

  /** `updateFolder(items, path)`: every folder at this level with id
      `path[0]` gets the new folder appended to its children at the end of
      the path, or the rest of the path applied to them. */
  function UpdateFolder(items: seq<Item>, path: seq<string>, nf: Item): (r: seq<Item>)
    ensures |r| == |items|
    ensures forall k :: 0 <= k < |items| ==> r[k].id == items[k].id && r[k].isFolder == items[k].isFolder
    ensures path != [] ==> forall k :: 0 <= k < |items| && !IsFolderWithId(items[k], path[0]) ==> r[k] == items[k]
    ensures path == [] ==> r == items
    decreases |path|, 1
  {
    if path == [] then items
    else seq(|items|, k requires 0 <= k < |items| => InsertInto(items[k], path, nf))
  }

  function InsertInto(it: Item, path: seq<string>, nf: Item): (r: Item)
    requires path != []
    ensures r.id == it.id && r.isFolder == it.isFolder
    decreases |path|, 0
  {
    if IsFolderWithId(it, path[0]) then
      if |path| == 1 then it.(hasChildren := true, children := Kids(it) + [nf])
      else it.(hasChildren := true, children := UpdateFolder(Kids(it), path[1..], nf))
    else it
  }

  /** The folder the path leads to is, after the update, the same folder
      with the new one appended to its children. */
  lemma {:induction false} UpdateFolderLands(items: seq<Item>, path: seq<string>, nf: Item, f: Item)
    requires FolderAt(items, path) == Some(f)
    ensures FolderAt(UpdateFolder(items, path, nf), path) == Some(f.(hasChildren := true, children := Kids(f) + [nf]))
    decreases |path|
  {
    var k := FindFolder(items, path[0]);
    var r := UpdateFolder(items, path, nf);
    assert FindFolder(r, path[0]) == k by {
      assert IsFolderWithId(r[k], path[0]);
      forall j | 0 <= j < k ensures !IsFolderWithId(r[j], path[0]) {
        assert r[j] == items[j];
      }
    }
    if |path| > 1 {
      assert r[k] == InsertInto(items[k], path, nf);
      assert Kids(r[k]) == UpdateFolder(Kids(items[k]), path[1..], nf);
      UpdateFolderLands(Kids(items[k]), path[1..], nf, f);
    }
  }

  /** `handleCreateFolder` on the file tree: nothing for a blank name; at the
      root the folder is appended; otherwise it goes into the folder at the
      end of the current path. */
  function CreateFolder(files: seq<Item>, currentPath: seq<string>, name: string, newId: string): (r: seq<Item>)
    ensures Strings.Trim(name) == "" ==> r == files
    ensures Strings.Trim(name) != "" && currentPath == [] ==>
      r == files + [NewFolder(newId, name, currentPath)]
    ensures currentPath != [] ==> |r| == |files|
  {
    if Strings.Trim(name) == "" then files
    else if |currentPath| == 0 then files + [NewFolder(newId, name, currentPath)]
    else UpdateFolder(files, currentPath, NewFolder(newId, name, currentPath))
  }

  /** Inside a folder, the new folder is the last child of the folder the
      path leads to, and carries that folder's id as its parent. */
  lemma CreateFolderInside(files: seq<Item>, currentPath: seq<string>, name: string, newId: string, f: Item)
    requires Strings.Trim(name) != "" && FolderAt(files, currentPath) == Some(f)
    ensures var nf := NewFolder(newId, name, currentPath);
      && FolderAt(CreateFolder(files, currentPath, name, newId), currentPath) ==
         Some(f.(hasChildren := true, children := Kids(f) + [nf]))
      && nf.parentId == Some(f.id) && nf.name == Strings.Trim(name) && nf.isFolder
  {
    UpdateFolderLands(files, currentPath, NewFolder(newId, name, currentPath), f);
  }

  // ---------------------------------------------------------------------
  // Star and trash toggle
  // ---------------------------------------------------------------------

  /** The flags `handleItemAction` gives a matching item: `star` flips
      `isStarred`, `trash` flips `isTrash`, any other action flips nothing. */
  function Toggle(it: Item, action: string): (r: Item)
    ensures r.id == it.id && r.children == it.children && r.hasChildren == it.hasChildren
    ensures action == "star" ==> r.isStarred == !it.isStarred && r.isTrash == it.isTrash
    ensures action == "trash" ==> r.isTrash == !it.isTrash && r.isStarred == it.isStarred
  {
    it.(isStarred := if action == "star" then !it.isStarred else it.isStarred,
        isTrash := if action == "trash" then !it.isTrash else it.isTrash)
  }

  /** `updateItem(items)`: a matching item is toggled (its children are not
      visited); any other item with children has the update applied to
      them. */
  function UpdateItems(items: seq<Item>, itemId: string, action: string): (r: seq<Item>)
    ensures |r| == |items|
    ensures forall k :: 0 <= k < |items| ==> r[k].id == items[k].id
    ensures forall k :: 0 <= k < |items| && items[k].id == itemId ==> r[k] == Toggle(items[k], action)
    ensures forall k :: 0 <= k < |items| && items[k].id != itemId ==> r[k].(children := items[k].children) == items[k]
    decreases items
  {
    seq(|items|, k requires 0 <= k < |items| => UpdateOne(items[k], itemId, action))
  }

  function UpdateOne(it: Item, itemId: string, action: string): (r: Item)
    ensures r.id == it.id
    decreases it
  {
    if it.id == itemId then Toggle(it, action)
    else if it.hasChildren then it.(children := UpdateItems(it.children, itemId, action))
    else it
  }

  /** Applying the same action to the same id twice restores the tree. */
  lemma {:induction false} ItemActionTwice(items: seq<Item>, itemId: string, action: string)
    ensures UpdateItems(UpdateItems(items, itemId, action), itemId, action) == items
    decreases items
  {
    var once := UpdateItems(items, itemId, action);
    forall k | 0 <= k < |items|
      ensures UpdateOne(once[k], itemId, action) == items[k]
    {
      ItemActionTwiceOne(items[k], itemId, action);
    }
  }

  lemma {:induction false} ItemActionTwiceOne(it: Item, itemId: string, action: string)
    ensures UpdateOne(UpdateOne(it, itemId, action), itemId, action) == it
    decreases it
  {
    if it.id != itemId && it.hasChildren {
      ItemActionTwice(it.children, itemId, action);
    }
  }

  /** The number of items in a tree, counting every descendant. */
  function SizeAll(items: seq<Item>): nat
    decreases items
  {
    if items == [] then 0 else SizeOne(items[0]) + SizeAll(items[1..])
  }

  function SizeOne(it: Item): nat
    decreases it
  {
    1 + (if it.hasChildren then SizeAll(it.children) else 0)
  }

  /** No item of a flattening is larger than the whole tree. */
  lemma {:induction false} FlattenSizes(items: seq<Item>)
    ensures forall x :: x in FlattenAll(items) ==> SizeOne(x) <= SizeAll(items)
    decreases items
  {
    if items != [] {
      var h, rest := items[0], items[1..];
      FlattenSizes(rest);
      if h.hasChildren {
        FlattenSizes(h.children);
      }
      assert FlattenAll(items) == FlattenOne(h) + FlattenAll(rest);
    }
  }

  /** The first updated item and the update of the rest. */
  lemma UpdateItemsSplit(items: seq<Item>, itemId: string, action: string)
    requires items != []
    ensures UpdateItems(items, itemId, action)[0] == UpdateOne(items[0], itemId, action)
    ensures UpdateItems(items, itemId, action)[1..] == UpdateItems(items[1..], itemId, action)
  {
    var r, t := UpdateItems(items, itemId, action), UpdateItems(items[1..], itemId, action);
    assert |r[1..]| == |t|;
    forall k | 0 <= k < |t| ensures r[1..][k] == t[k] {
      assert items[1..][k] == items[k + 1];
    }
  }

  /** Where an item of the updated tree comes from: the toggled match, a
      match or a descendant of a match left as it was, or any other item
      with every field but its children unchanged. */
  predicate UpdatedFrom(y: Item, x: Item, itemId: string, action: string) {
    if y.id == itemId then y == Toggle(x, action) || y == x
    else y.(children := x.children) == x
  }

  /** Every item of the updated tree, at any depth, comes from an item of
      the old tree: an item whose id is not the target keeps its name, path,
      parent and star and trash flags. */
  lemma {:induction false} UpdateKeepsOtherFlags(items: seq<Item>, itemId: string, action: string)
    ensures forall y :: y in FlattenAll(UpdateItems(items, itemId, action)) ==>
      exists x :: x in FlattenAll(items) && UpdatedFrom(y, x, itemId, action)
    decreases items
  {
    if items != [] {
      var h, rest := items[0], items[1..];
      var u := UpdateOne(h, itemId, action);
      UpdateItemsSplit(items, itemId, action);
      var r := UpdateItems(items, itemId, action);
      assert FlattenAll(r) == FlattenOne(u) + FlattenAll(UpdateItems(rest, itemId, action));
      assert FlattenAll(items) == FlattenOne(h) + FlattenAll(rest);
      UpdateKeepsOtherFlags(rest, itemId, action);
      if h.id != itemId && h.hasChildren {
        UpdateKeepsOtherFlags(h.children, itemId, action);
      }
      forall y | y in FlattenAll(r)
        ensures exists x :: x in FlattenAll(items) && UpdatedFrom(y, x, itemId, action)
      {
        if y == u {
          assert h in FlattenAll(items) && UpdatedFrom(y, h, itemId, action);
        } else if y in FlattenAll(UpdateItems(rest, itemId, action)) {
          var x :| x in FlattenAll(rest) && UpdatedFrom(y, x, itemId, action);
          assert x in FlattenAll(items);
        } else if h.id == itemId {
          assert y in FlattenAll(h.children);
          assert y in FlattenAll(items) && UpdatedFrom(y, y, itemId, action);
        } else {
          assert y in FlattenAll(UpdateItems(h.children, itemId, action));
          var x :| x in FlattenAll(h.children) && UpdatedFrom(y, x, itemId, action);
          assert x in FlattenAll(items);
        }
      }
    }
  }

  /** With ids unique in the tree, the action reaches the matching item at
      any depth: its toggled form is in the updated tree. */
  lemma {:induction false} ToggleReachesNested(items: seq<Item>, itemId: string, action: string, x: Item)
    requires x in FlattenAll(items) && x.id == itemId
    requires forall y :: y in FlattenAll(items) && y.id == itemId ==> y == x
    ensures Toggle(x, action) in FlattenAll(UpdateItems(items, itemId, action))
    decreases items
  {
    var h, rest := items[0], items[1..];
    var u := UpdateOne(h, itemId, action);
    UpdateItemsSplit(items, itemId, action);
    var r := UpdateItems(items, itemId, action);
    assert FlattenAll(r) == FlattenOne(u) + FlattenAll(UpdateItems(rest, itemId, action));
    assert FlattenAll(items) == FlattenOne(h) + FlattenAll(rest);
    if x == h {
      assert u == Toggle(x, action);
    } else if x in FlattenAll(rest) {
      ToggleReachesNested(rest, itemId, action, x);
    } else {
      assert h.hasChildren && x in FlattenAll(h.children);
      FlattenSizes(h.children);
      assert SizeOne(x) < SizeOne(h);
      assert h.id != itemId;
      ToggleReachesNested(h.children, itemId, action, x);
      assert Toggle(x, action) in FlattenOne(u);
    }
  }

  /** An id that is nowhere in the tree. */
  predicate Absent(items: seq<Item>, itemId: string) {
    forall x :: x in FlattenAll(items) ==> x.id != itemId
  }

  /** An action on an id that is nowhere in the tree changes nothing. */
  lemma {:induction false} ItemActionAbsent(items: seq<Item>, itemId: string, action: string)
    requires Absent(items, itemId)
    ensures UpdateItems(items, itemId, action) == items
    decreases items
  {
    forall k | 0 <= k < |items|
      ensures UpdateOne(items[k], itemId, action) == items[k]
    {
      AbsentParts(items, k, itemId);
      if items[k].hasChildren {
        ItemActionAbsent(items[k].children, itemId, action);
      }
    }
  }

  /** An id absent from a tree is absent from each item of its top level
      and from that item's children. */
  lemma {:induction false} AbsentParts(items: seq<Item>, k: nat, itemId: string)
    requires Absent(items, itemId) && k < |items|
    ensures items[k].id != itemId
    ensures items[k].hasChildren ==> Absent(items[k].children, itemId)
    decreases k
  {
    assert items == [items[0]] + items[1..];
    if k == 0 {
      assert items[0] in FlattenOne(items[0]);
      if items[0].hasChildren {
        forall x | x in FlattenAll(items[0].children) ensures x in FlattenAll(items) { }
      }
    } else {
      forall x | x in FlattenAll(items[1..]) ensures x in FlattenAll(items) { }
      assert items[k] == items[1..][k - 1];
      AbsentParts(items[1..], k - 1, itemId);
    }
  }

  // ---------------------------------------------------------------------
  // Permanent deletion
  // ---------------------------------------------------------------------

  /** `handlePermanentDelete` as written: the `filter` callback returns
      `false` for a match and a (truthy) object for an item with children,
      so only top-level matches go and the children are never visited. */
  function PermanentDeleteAsWritten(items: seq<Item>, itemId: string): (r: seq<Item>)
    ensures forall k :: 0 <= k < |r| ==> r[k] in items && r[k].id != itemId
    ensures forall k :: 0 <= k < |items| && items[k].id != itemId ==> items[k] in r
  {
    Seqs.Filter(items, (it: Item) => it.id != itemId)
  }

  /** `handlePermanentDelete` as evidently intended: matches go at every
      depth, the rest keep their order. */
  function PermanentDelete(items: seq<Item>, itemId: string): (r: seq<Item>)
    ensures |r| <= |items|
    ensures forall k :: 0 <= k < |r| ==> r[k].id != itemId
    decreases items
  {
    if items == [] then []
    else if items[0].id == itemId then PermanentDelete(items[1..], itemId)
    else [PruneOne(items[0], itemId)] + PermanentDelete(items[1..], itemId)
  }

  function PruneOne(it: Item, itemId: string): (r: Item)
    ensures r.id == it.id && r.hasChildren == it.hasChildren
    decreases it
  {
    if it.hasChildren then it.(children := PermanentDelete(it.children, itemId)) else it
  }

  /** After the intended deletion the id is nowhere in the tree. */
  lemma {:induction false} PermanentDeleteRemovesAll(items: seq<Item>, itemId: string)
    ensures Absent(PermanentDelete(items, itemId), itemId)
    decreases items
  {
    if items != [] {
      PermanentDeleteRemovesAll(items[1..], itemId);
      if items[0].id != itemId {
        var p := PruneOne(items[0], itemId);
        if items[0].hasChildren {
          PermanentDeleteRemovesAll(items[0].children, itemId);
        }
        assert forall x :: x in FlattenOne(p) ==> x.id != itemId;
        FlattenAllConcat([p], PermanentDelete(items[1..], itemId));
        assert [p][1..] == [];
      }
    }
  }

  /** Deleting an id that is nowhere in the tree changes nothing. */
  lemma {:induction false} PermanentDeleteAbsent(items: seq<Item>, itemId: string)
    requires Absent(items, itemId)
    ensures PermanentDelete(items, itemId) == items
    decreases items
  {
    if items != [] {
      AbsentParts(items, 0, itemId);
      forall x | x in FlattenAll(items[1..]) ensures x in FlattenAll(items) { }
      PermanentDeleteAbsent(items[1..], itemId);
      if items[0].hasChildren {
        PermanentDeleteAbsent(items[0].children, itemId);
      }
      assert items == [items[0]] + items[1..];
    }
  }

  /** The defect: deleting a file that sits inside a folder leaves it in
      the tree, where the intended deletion removes it. */
  lemma PermanentDeleteAsWrittenKeepsNested()
    ensures var child := Item("b", "b.txt", "/a/b.txt", 1, false, Some("a"), false, true, false, []);
      var parent := Item("a", "a", "/a", 0, true, None, false, false, true, [child]);
      && child in FlattenAll(PermanentDeleteAsWritten([parent], "b"))
      && child !in FlattenAll(PermanentDelete([parent], "b"))
  {
    var child := Item("b", "b.txt", "/a/b.txt", 1, false, Some("a"), false, true, false, []);
    var parent := Item("a", "a", "/a", 0, true, None, false, false, true, [child]);
    assert PermanentDeleteAsWritten([parent], "b") == [parent];
    assert child in FlattenOne(parent) by {
      assert FlattenAll([child]) == [child] + FlattenAll([]);
    }
    assert [parent][1..] == [];
    PermanentDeleteRemovesAll([parent], "b");
  }

  // ---------------------------------------------------------------------
  // Navigation
  // ---------------------------------------------------------------------

  /** `handleFolderClick`: one id is appended to the path. */
  function FolderClick(path: seq<string>, folderId: string): seq<string> {
    path + [folderId]
  }

  /** `handleBreadcrumbClick`: `slice(0, index + 1)`, which stops at the
      end of the path. */
  function BreadcrumbClick(path: seq<string>, index: nat): (r: seq<string>)
    ensures r <= path
    ensures |r| == if index + 1 <= |path| then index + 1 else |path|
  {
    path[..if index + 1 <= |path| then index + 1 else |path|]
  }

  /** Opening a folder and then clicking the crumb of the folder that was
      open goes back to it; a crumb further up is unaffected by the
      opening. */
  lemma ClickThenBreadcrumb(path: seq<string>, folderId: string, index: nat)
    requires index < |path|
    ensures BreadcrumbClick(FolderClick(path, folderId), index) == BreadcrumbClick(path, index)
    ensures BreadcrumbClick(FolderClick(path, folderId), |path| - 1) == path
  {
  }

  /** The crumb at `index` is labelled with `getFolderFromPath` of the same
      prefix the click moves to, so after the click the page lists that
      folder's children. */
  lemma BreadcrumbShowsLabelledFolder(files: seq<Item>, path: seq<string>, index: nat, f: Item)
    requires index < |path| && FolderAt(files, path[..index + 1]) == Some(f) && f.hasChildren
    ensures Descend(files, BreadcrumbClick(path, index)) == f.children
  {
    WalkReachesFolder(files, path[..index + 1], f);
  }

  // ---------------------------------------------------------------------
  // Page state
  // ---------------------------------------------------------------------

  /** The state hooks of the Files page that these handlers use. */
  class FilesState {
    var files: seq<Item>
    var currentPath: seq<string>
    var searchQuery: string
    var newFolderName: string
    var isNewFolderDialogOpen: bool

    constructor ()
      ensures files == [] && currentPath == [] && searchQuery == "" && newFolderName == ""
      ensures !isNewFolderDialogOpen
    {
      files := [];
      currentPath := [];
      searchQuery := "";
      newFolderName := "";
      isNewFolderDialogOpen := false;
    }

    /** `getCurrentItems`: the path walk reassigning `current`, then the
        search filter. */
    method GetCurrentItems() returns (r: seq<Item>)
      ensures r == Visible(Descend(files, currentPath), searchQuery)
    {
      var current := files;
      var i := 0;
      while i < |currentPath|
        invariant 0 <= i <= |currentPath|
        invariant Descend(current, currentPath[i..]) == Descend(files, currentPath)
      {
        assert currentPath[i..][0] == currentPath[i] && currentPath[i..][1..] == currentPath[i + 1..];
        var k := FindFolder(current, currentPath[i]);
        if k >= 0 && current[k].hasChildren {
          current := current[k].children;
        }
        i := i + 1;
      }
      r := Visible(current, searchQuery);
    }

    method GetStarredItems() returns (r: seq<Item>)
      ensures r == StarredItems(files)
    {
      var all := GetAllItems(files);
      r := Seqs.Filter(all, (it: Item) => it.isStarred && !it.isTrash);
    }

    method GetTrashItems() returns (r: seq<Item>)
      ensures r == TrashItems(files)
    {
      var all := GetAllItems(files);
      r := Seqs.Filter(all, (it: Item) => it.isTrash);
    }

    /** `handleCreateFolder`: on a non-blank name the tree gains the folder
        and the name field and dialog are reset. */
    method HandleCreateFolder(newId: string)
      modifies this`files, this`newFolderName, this`isNewFolderDialogOpen
      ensures files == CreateFolder(old(files), currentPath, old(newFolderName), newId)
      ensures Strings.Trim(old(newFolderName)) != "" ==> newFolderName == "" && !isNewFolderDialogOpen
      ensures Strings.Trim(old(newFolderName)) == "" ==>
        newFolderName == old(newFolderName) && isNewFolderDialogOpen == old(isNewFolderDialogOpen)
    {
      if Strings.Trim(newFolderName) != "" {
        files := CreateFolder(files, currentPath, newFolderName, newId);
        newFolderName := "";
        isNewFolderDialogOpen := false;
      }
    }

    method HandleItemAction(itemId: string, action: string)
      modifies this`files
      ensures files == UpdateItems(old(files), itemId, action)
    {
      files := UpdateItems(files, itemId, action);
    }

    /** `handlePermanentDelete`, as evidently intended. */
    method HandlePermanentDelete(itemId: string)
      modifies this`files
      ensures files == PermanentDelete(old(files), itemId)
      ensures Absent(files, itemId)
    {
      files := PermanentDelete(files, itemId);
      PermanentDeleteRemovesAll(old(files), itemId);
    }

    /** `handlePermanentDelete` as written. */
    method HandlePermanentDeleteAsWritten(itemId: string)
      modifies this`files
      ensures files == PermanentDeleteAsWritten(old(files), itemId)
    {
      files := Seqs.Filter(files, (it: Item) => it.id != itemId);
    }

    method HandleFolderClick(folderId: string)
      modifies this`currentPath
      ensures currentPath == FolderClick(old(currentPath), folderId)
    {
      currentPath := currentPath + [folderId];
    }

    method HandleBreadcrumbClick(index: nat)
      modifies this`currentPath
      ensures currentPath == BreadcrumbClick(old(currentPath), index)
    {
      currentPath := BreadcrumbClick(currentPath, index);
    }
  }
}
