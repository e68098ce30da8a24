/**
 * The sidebar tree: which items start expanded for a preselected id
 * (`expandedItemIds` and its recursive `walkTreeItems`), the displayed
 * name of an item, the icon an item shows and whether its actions show.
 *
 * The walk keeps one mutable stack of ids shared by all recursive calls:
 * an id is pushed when the walk enters an item of an array and popped
 * when it backtracks.  It is modelled by the class `TreeWalk`, whose
 * methods are proved against the pure functions `Preorder`, `FindRoute`
 * and `RouteBelow`.
 */
module TreeView {
  import opened Common

  /** A component a tree item can render as its icon. */
  datatype Icon = Icon(component: string)

  /** A rendered node passed as an item's `actions`. */
  datatype Action = Action(content: string)

  /** The optional `children` array of an item.  An empty array is present
      (it is truthy in JavaScript) and differs from an absent one. */
  datatype Children = Absent | Present(items: seq<TreeDataItem>)

  datatype TreeDataItem = TreeDataItem(
    id: string,
    name: string,
    icon: Option<Icon>,
    selectedIcon: Option<Icon>,
    openIcon: Option<Icon>,
    children: Children,
    actions: Option<Action>)

  /** The `data` prop: an array of items or one item. */
  datatype TreeData = Items(items: seq<TreeDataItem>) | Single(item: TreeDataItem)

  function ChildrenOf(x: TreeDataItem): seq<TreeDataItem> {
    match x.children
    case Absent => []
    case Present(cs) => cs
  }

  // ---------------------------------------------------------------------
  // Specification of the walk
  // ---------------------------------------------------------------------

  /** Every id of a forest, each item before its children (pre-order). */
  function Preorder(xs: seq<TreeDataItem>): seq<string> {
    if xs == [] then [] else PreorderItem(xs[0]) + Preorder(xs[1..])
  }

  function PreorderItem(x: TreeDataItem): seq<string> {
    [x.id] + match x.children
             case Absent => []
             case Present(cs) => Preorder(cs)
  }

  /** The items from a top-level item of `xs` down to the first item, in
      pre-order, whose id is `t`; `None` when no item has id `t`. */
  function FindRoute(xs: seq<TreeDataItem>, t: string): Option<seq<TreeDataItem>> {
    if xs == [] then None
    else match RouteBelow(xs[0], t)
      case Some(r) => Some([xs[0]] + r)
      case None => FindRoute(xs[1..], t)
  }

  /** The items strictly below `x` on the way to the first item with id
      `t` in `x`'s subtree (`[]` when `x` itself has id `t`). */
  function RouteBelow(x: TreeDataItem, t: string): Option<seq<TreeDataItem>> {
    if x.id == t then Some([])
    else match x.children
      case Absent => None
      case Present(cs) => FindRoute(cs, t)
  }

  function Ids(route: seq<TreeDataItem>): (r: seq<string>)
    ensures |r| == |route|
    ensures forall k :: 0 <= k < |route| ==> r[k] == route[k].id
  {
    seq(|route|, k requires 0 <= k < |route| => route[k].id)
  }

  /** `route` runs from an item of `xs` down through children to an item
      with id `t`, and no item before the last has id `t`. */
  ghost predicate IsRouteTo(xs: seq<TreeDataItem>, route: seq<TreeDataItem>, t: string) {
    && |route| >= 1
    && route[0] in xs
    && (forall k :: 0 <= k < |route| - 1 ==> route[k + 1] in ChildrenOf(route[k]))
    && (forall k :: 0 <= k < |route| - 1 ==> route[k].id != t)
    && route[|route| - 1].id == t
  }

  /** The ids that start expanded, as `expandedItemIds` computes them. */
  function ExpandedIds(data: TreeData, selected: Option<string>, expandAll: bool): seq<string> {
    if selected.None? || selected.value == "" then []
    else if expandAll then
      match data
      case Items(xs) => Preorder(xs)
      case Single(x) => Preorder(ChildrenOf(x))
    else
      match data
      case Items(xs) => Ids(FindRoute(xs, selected.value).GetOr([]))
      case Single(x) => Ids(RouteBelow(x, selected.value).GetOr([]))
  }

  // ---------------------------------------------------------------------
  // Properties of the specification
  // ---------------------------------------------------------------------

  lemma {:induction false} PreorderConcat(xs: seq<TreeDataItem>, ys: seq<TreeDataItem>)
    ensures Preorder(xs + ys) == Preorder(xs) + Preorder(ys)
  {
    if xs != [] {
      assert (xs + ys)[0] == xs[0];
      assert (xs + ys)[1..] == xs[1..] + ys;
      PreorderConcat(xs[1..], ys);
    } else {
      assert xs + ys == ys;
    }
  }

  /** The search finds a route exactly when the id occurs in the forest. */
  lemma {:induction false} FindRouteFound(xs: seq<TreeDataItem>, t: string)
    ensures FindRoute(xs, t).Some? <==> t in Preorder(xs)
  {
    if xs != [] {
      RouteBelowFound(xs[0], t);
      FindRouteFound(xs[1..], t);
    }
  }

  lemma {:induction false} RouteBelowFound(x: TreeDataItem, t: string)
    ensures RouteBelow(x, t).Some? <==> t in PreorderItem(x)
  {
    match x.children
    case Absent =>
    case Present(cs) => FindRouteFound(cs, t);
  }

  /** First match: searching `xs + ys` finds the route in `xs` whenever
      the id occurs there, so later duplicates are never reached. */
  lemma {:induction false} FindRouteConcat(xs: seq<TreeDataItem>, ys: seq<TreeDataItem>, t: string)
    ensures FindRoute(xs + ys, t) == if t in Preorder(xs) then FindRoute(xs, t) else FindRoute(ys, t)
  {
    if xs == [] {
      assert xs + ys == ys;
    } else {
      assert (xs + ys)[0] == xs[0];
      assert (xs + ys)[1..] == xs[1..] + ys;
      RouteBelowFound(xs[0], t);
      FindRouteConcat(xs[1..], ys, t);
    }
  }

  /** A route that is found leads from a top-level item down through
      children to the first item with the selected id. */
  lemma {:induction false} FindRouteIsRoute(xs: seq<TreeDataItem>, t: string)
    requires FindRoute(xs, t).Some?
    ensures IsRouteTo(xs, FindRoute(xs, t).value, t)
  {
    if RouteBelow(xs[0], t).Some? {
      var below := RouteBelow(xs[0], t).value;
      var route := [xs[0]] + below;
      if xs[0].id != t {
        var cs := ChildrenOf(xs[0]);
        FindRouteIsRoute(cs, t);
        assert below == FindRoute(cs, t).value;
        forall k | 0 <= k < |route| - 1
          ensures route[k + 1] in ChildrenOf(route[k]) && route[k].id != t
        {
          if k > 0 { assert route[k] == below[k - 1] && route[k + 1] == below[k]; }
        }
      }
    } else {
      FindRouteIsRoute(xs[1..], t);
    }
  }

  /** With an id that occurs nowhere (and `expandAll` off), nothing
      starts expanded: every push was undone by its pop. */
  lemma AbsentTargetExpandsNothing(xs: seq<TreeDataItem>, t: string)
    requires t !in Preorder(xs)
    ensures ExpandedIds(Items(xs), Some(t), false) == []
  {
    FindRouteFound(xs, t);
  }

  /** With an id that occurs (and `expandAll` off), the expanded ids are
      the ids along a route to its first occurrence, ending with it. */
  lemma PresentTargetExpandsRoute(xs: seq<TreeDataItem>, t: string)
    requires t != "" && t in Preorder(xs)
    ensures FindRoute(xs, t).Some?
    ensures ExpandedIds(Items(xs), Some(t), false) == Ids(FindRoute(xs, t).value)
    ensures IsRouteTo(xs, FindRoute(xs, t).value, t)
    ensures Last(ExpandedIds(Items(xs), Some(t), false)) == t
  {
    FindRouteFound(xs, t);
    FindRouteIsRoute(xs, t);
  }

  /** When `data` is a single item, its own id is never pushed: the result
      is that of its children as an array, or empty when it is the target. */
  lemma SingleRootNotPushed(x: TreeDataItem, selected: Option<string>, expandAll: bool)
    ensures ExpandedIds(Single(x), selected, expandAll) ==
      if !expandAll && selected == Some(x.id) then []
      else ExpandedIds(Items(ChildrenOf(x)), selected, expandAll)
  {
    if selected.Some? && selected.value != "" && !expandAll && x.id != selected.value {
      match x.children
      case Absent =>
        assert RouteBelow(x, selected.value) == None == FindRoute([], selected.value);
      case Present(cs) =>
    }
  }

  /** One step of the walk's loop when the item holds the target: the
      route through it is the first route of the whole array. */
  lemma FirstRouteThrough(items: seq<TreeDataItem>, i: nat, t: string)
    requires i < |items|
    requires FindRoute(items[..i], t).None? && RouteBelow(items[i], t).Some?
    ensures FindRoute(items, t) == Some([items[i]] + RouteBelow(items[i], t).value)
    ensures Ids(FindRoute(items, t).value) == [items[i].id] + Ids(RouteBelow(items[i], t).value)
  {
    FindRouteFound(items[..i], t);
    FindRouteConcat(items[..i], items[i..], t);
    assert items[..i] + items[i..] == items;
    assert items[i..][0] == items[i];
  }

  /** One step of the loop when the item does not hold the target: the
      prefix walked so far still holds no route. */
  lemma NoRouteYet(items: seq<TreeDataItem>, i: nat, t: string)
    requires i < |items|
    requires FindRoute(items[..i], t).None? && RouteBelow(items[i], t).None?
    ensures FindRoute(items[..i + 1], t).None?
  {
    assert items[..i + 1] == items[..i] + [items[i]];
    FindRouteFound(items[..i], t);
    FindRouteConcat(items[..i], [items[i]], t);
  }

  /** One step of the loop with `expandAll`: the item's own id and then
      its children's pre-order extend the pre-order of the prefix. */
  lemma PreorderStep(items: seq<TreeDataItem>, i: nat)
    requires i < |items|
    ensures Preorder(items[..i + 1]) == Preorder(items[..i]) + [items[i].id] + Preorder(ChildrenOf(items[i]))
  {
    assert items[..i + 1] == items[..i] + [items[i]];
    assert Preorder([items[i]]) == PreorderItem(items[i]);
    PreorderConcat(items[..i], [items[i]]);
  }

  // ---------------------------------------------------------------------
  // The walk itself
  // ---------------------------------------------------------------------

  /** The state `walkTreeItems` closes over: the target, the `expandAll`
      flag and the shared stack `ids`. */
  class TreeWalk {
    const targetId: string
    const expandAll: bool
    var ids: seq<string>

    constructor (targetId: string, expandAll: bool)
      ensures this.targetId == targetId && this.expandAll == expandAll && ids == []
    {
      this.targetId := targetId;
      this.expandAll := expandAll;
      ids := [];
    }

    /** The array branch: push each item's id, walk the item, stop at the
        first item whose subtree holds the target, otherwise pop again. */
    method WalkArray(items: seq<TreeDataItem>) returns (found: bool)
      modifies this
      ensures expandAll ==> !found && ids == old(ids) + Preorder(items)
      ensures !expandAll ==> found == FindRoute(items, targetId).Some?
      ensures !expandAll ==> ids == old(ids) + Ids(FindRoute(items, targetId).GetOr([]))
    {
      var i := 0;
      while i < |items|
        invariant 0 <= i <= |items|
        invariant expandAll ==> ids == old(ids) + Preorder(items[..i])
        invariant !expandAll ==> ids == old(ids) && FindRoute(items[..i], targetId).None?
      {
        var x := items[i];
        ids := ids + [x.id];
        var sub := WalkItem(x);
        if sub && !expandAll {
          FirstRouteThrough(items, i, targetId);
          assert ids == old(ids) + Ids(FindRoute(items, targetId).value);
          return true;
        }
        if !expandAll {
          assert ids == old(ids) + [x.id];
          ids := ids[..|ids| - 1];
          NoRouteYet(items, i, targetId);
        } else {
          PreorderStep(items, i);
        }
        i := i + 1;
      }
      assert items[..i] == items;
      found := false;
    }

    /** The single-item branch: report the target itself, otherwise walk
        the children array if there is one. */
    method WalkItem(x: TreeDataItem) returns (found: bool)
      modifies this
      ensures expandAll ==> !found && ids == old(ids) + Preorder(ChildrenOf(x))
      ensures !expandAll ==> found == RouteBelow(x, targetId).Some?
      ensures !expandAll ==> ids == old(ids) + Ids(RouteBelow(x, targetId).GetOr([]))
    {
      if !expandAll && x.id == targetId {
        found := true;
      } else if x.children.Present? {
        found := WalkArray(x.children.items);
      } else {
        found := false;
      }
    }
  }

  /** `expandedItemIds`: nothing without a selected id, otherwise the ids
      the walk leaves on its stack. */
  method ExpandedItemIds(data: TreeData, selected: Option<string>, expandAll: bool)
    returns (ids: seq<string>)
    ensures ids == ExpandedIds(data, selected, expandAll)
  {
    if selected.None? || selected.value == "" {
      return [];
    }
    var walk := new TreeWalk(selected.value, expandAll);
    match data {
      case Items(xs) =>
        var _ := walk.WalkArray(xs);
      case Single(x) =>
        var _ := walk.WalkItem(x);
    }
    ids := walk.ids;
  }

  // ---------------------------------------------------------------------
  // Displayed name, icon and actions of one item
  // ---------------------------------------------------------------------

  /** The characters `String.prototype.trim` removes: JavaScript white
      space and line terminators. */
  predicate IsJsSpace(c: char) {
    var n := c as int;
    n == 0x09 || n == 0x0A || n == 0x0B || n == 0x0C || n == 0x0D || n == 0x20
    || n == 0xA0 || n == 0x1680 || (0x2000 <= n <= 0x200A) || n == 0x2028
    || n == 0x2029 || n == 0x202F || n == 0x205F || n == 0x3000 || n == 0xFEFF
  }

  predicate AllSpace(s: string) {
    forall k :: 0 <= k < |s| ==> IsJsSpace(s[k])
  }

  function TrimStart(s: string): (r: string)
    ensures |r| <= |s| && r == s[|s| - |r|..]
    ensures AllSpace(s[..|s| - |r|])
    ensures r != [] ==> !IsJsSpace(r[0])
  {
    if s != [] && IsJsSpace(s[0]) then
      var r := TrimStart(s[1..]);
      assert s[..|s| - |r|] == [s[0]] + s[1..][..|s| - 1 - |r|];
      assert s[1..][|s| - 1 - |r|..] == s[|s| - |r|..];
      r
    else
      assert s[..0] == [];
      s
  }

  function TrimEnd(s: string): (r: string)
    ensures |r| <= |s| && r == s[..|r|]
    ensures AllSpace(s[|r|..])
    ensures r != [] ==> !IsJsSpace(r[|r| - 1])
  {
    if s != [] && IsJsSpace(s[|s| - 1]) then TrimEnd(s[..|s| - 1]) else s
  }

  /** `s.trim()`: the slice of `s` left after removing white space from
      both ends (everything cut off is white space); empty exactly when `s`
      is all white space. */
  function Trim(s: string): (r: string)
    ensures exists i, j :: 0 <= i <= j <= |s| && s[i..j] == r && AllSpace(s[..i]) && AllSpace(s[j..])
    ensures r == [] <==> AllSpace(s)
    ensures r != [] ==> !IsJsSpace(r[0]) && !IsJsSpace(r[|r| - 1])
  {
    var front := TrimStart(s);
    var r := TrimEnd(front);
    TrimSlice(s, front, r);
    TrimAllSpace(s, front, r);
    r
  }

  lemma TrimAllSpace(s: string, front: string, r: string)
    requires front == TrimStart(s) && r == TrimEnd(front)
    ensures r == [] <==> AllSpace(s)
  {
    var n := |s| - |front|;
    assert s[n..] == front && AllSpace(s[..n]);
    AllSpaceSplit(s, n);
    assert AllSpace(s) <==> AllSpace(front);
    AllSpaceIffTrimEndEmpty(front);
  }

  lemma AllSpaceSplit(s: string, n: nat)
    requires n <= |s|
    ensures AllSpace(s) <==> AllSpace(s[..n]) && AllSpace(s[n..])
  {
    if AllSpace(s[..n]) && AllSpace(s[n..]) {
      forall k | 0 <= k < |s| ensures IsJsSpace(s[k]) {
        if k < n {
          assert s[k] == s[..n][k];
        } else {
          assert s[k] == s[n..][k - n];
        }
      }
    }
  }

  /** Trimming keeps the slice `s[i..i + |r|]` and cuts off only white
      space on either side of it. */
  lemma TrimSlice(s: string, front: string, r: string)
    requires |front| <= |s| && front == s[|s| - |front|..] && AllSpace(s[..|s| - |front|])
    requires |r| <= |front| && r == front[..|r|] && AllSpace(front[|r|..])
    ensures exists i, j :: 0 <= i <= j <= |s| && s[i..j] == r && AllSpace(s[..i]) && AllSpace(s[j..])
  {
    var i := |s| - |front|;
    assert s[i + |r|..] == front[|r|..];
    assert s[i..i + |r|] == r;
  }

  lemma AllSpaceIffTrimEndEmpty(s: string)
    ensures AllSpace(s) <==> TrimEnd(s) == []
    ensures s != [] && !IsJsSpace(s[0]) ==> TrimEnd(s) != []
  {
    var back := TrimEnd(s);
    if back == [] {
      assert s[0..] == s;
    } else {
      assert back[0] == s[0];
    }
  }

  /** The name a tree row shows: the trimmed name, or `'Unnamed Folder'`
      when nothing but white space is left. */
  function DisplayName(name: string): (r: string)
    ensures AllSpace(name) ==> r == "Unnamed Folder"
    ensures !AllSpace(name) ==> r == Trim(name) && r != []
  {
    var trimmed := Trim(name);
    if trimmed != "" then trimmed else "Unnamed Folder"
  }

  /** What `TreeIcon` renders: one of the item's icon fields, the default
      icon passed to the tree, or the built-in folder glyph. */
  datatype RenderedIcon = ItemIcon(icon: Icon) | DefaultIcon(icon: Icon) | FolderGlyph

  /** Selected picks `selectedIcon`, otherwise open picks `openIcon`,
      otherwise `icon`; when the picked field is absent the default icon
      is used, then the folder glyph, never another field of the item. */
  function TreeIcon(item: TreeDataItem, isSelected: bool, isOpen: bool, default: Option<Icon>): (r: RenderedIcon)
    ensures isSelected ==> (r.ItemIcon? <==> item.selectedIcon.Some?)
    ensures isSelected && r.ItemIcon? ==> Some(r.icon) == item.selectedIcon
    ensures !isSelected && isOpen ==> (r.ItemIcon? <==> item.openIcon.Some?)
    ensures !isSelected && isOpen && r.ItemIcon? ==> Some(r.icon) == item.openIcon
    ensures !isSelected && !isOpen ==> (r.ItemIcon? <==> item.icon.Some?)
    ensures !isSelected && !isOpen && r.ItemIcon? ==> Some(r.icon) == item.icon
    ensures !r.ItemIcon? ==> (r.DefaultIcon? <==> default.Some?)
    ensures r.DefaultIcon? ==> Some(r.icon) == default
  {
    var picked := if isSelected then item.selectedIcon else if isOpen then item.openIcon else item.icon;
    match picked
    case Some(c) => ItemIcon(c)
    case None =>
      match default
      case Some(d) => DefaultIcon(d)
      case None => FolderGlyph
  }

  /** `TreeActions`: an item's actions show only when it has some and it
      is the selected item. */
  function TreeActions(actions: Option<Action>, isSelected: bool): (r: Option<Action>)
    ensures r.Some? <==> actions.Some? && isSelected
    ensures r.Some? ==> r == actions
  {
    if actions.None? || !isSelected then None else actions
  }

  // ---------------------------------------------------------------------
  // The sidebar's tree, with ids 5, 6 and 7 repeated three times
  // ---------------------------------------------------------------------

  function Leaf(id: string, name: string): TreeDataItem {
    TreeDataItem(id, name, Some(Icon("File")), Some(Icon("File")), None, Absent, None)
  }

  function RepeatedFolder(): TreeDataItem {
    TreeDataItem("5", "SAkib", Some(Icon("Folder")), Some(Icon("Folder")), None,
      Present([Leaf("6", "Resume.pdf"), Leaf("7", "CoverLetter.docx")]), None)
  }

  function SidebarData(): seq<TreeDataItem> {
    [TreeDataItem("1", "Documents", Some(Icon("Folder")), None, Some(Icon("Folder")),
      Present([Leaf("2", "Resume.pdf"), RepeatedFolder(), RepeatedFolder(), RepeatedFolder(),
               Leaf("3", "CoverLetter.docx")]), None)]
  }

  /** Selecting an id that occurs three times expands one route only: the
      ids of the other copies are pushed and popped again. */
  lemma SidebarFirstMatch()
    ensures ExpandedIds(Items(SidebarData()), Some("7"), false) == ["1", "5", "7"]
  {
  }

  lemma RepeatedFolderPreorder()
    ensures PreorderItem(RepeatedFolder()) == ["5", "6", "7"]
  {
    assert Preorder([Leaf("7", "CoverLetter.docx")]) == ["7"];
  }

  /** With `expandAll`, every id is expanded, repeats included, in pre-order. */
  lemma SidebarExpandAll()
    ensures ExpandedIds(Items(SidebarData()), Some("7"), true)
      == ["1", "2", "5", "6", "7", "5", "6", "7", "5", "6", "7", "3"]
  {
    RepeatedFolderPreorder();
    var s := RepeatedFolder();
    var c := Leaf("3", "CoverLetter.docx");
    assert Preorder([c]) == ["3"];
    assert Preorder([s, c]) == ["5", "6", "7", "3"];
    assert Preorder([s, s, c]) == ["5", "6", "7", "5", "6", "7", "3"];
    assert Preorder([s, s, s, c]) == ["5", "6", "7", "5", "6", "7", "5", "6", "7", "3"];
  }

  /** An id the tree does not hold expands nothing. */
  lemma SidebarAbsentId()
    ensures ExpandedIds(Items(SidebarData()), Some("4"), false) == []
  {
  }
}
