/** The navigation sidebar: a fixed menu of pages, some with sub-pages, a
    search box over the menu labels, and submenus of which at most one is
    open. */
module Sidebar {
  import opened Wrappers
  import opened Strings
  import opened Sequences
  import App

  datatype SubItem = SubItem(id: string, name: string)

  /** A menu entry; an entry without sub-items has an empty list. */
  datatype MenuItem = MenuItem(id: string, name: string, subItems: seq<SubItem>)

  /** A search hit: `parent` is '' for a top-level entry and the entry's
      name for one of its sub-items. */
  datatype SearchResult = SearchResult(parent: string, name: string, id: string)

  const MainMenu: seq<MenuItem> := [
    MenuItem("home", "Home", []),
    MenuItem("learning-hub", "Learning Hub", [
      SubItem("study-flow", "Study Flow"), SubItem("smart-journey", "Smart Journey"),
      SubItem("notes-buddy", "Notes Buddy")]),
    MenuItem("learning-tools", "Learning Tools", [
      SubItem("study-rooms", "Study Rooms"), SubItem("planner", "Planner"),
      SubItem("collaboration", "Collaboration"), SubItem("utilities", "Utilities")]),
    MenuItem("account", "Account", [SubItem("profile", "Profile"), SubItem("settings", "Settings")])
  ]

  /** The sub-items of one entry as results under that entry. */
  function SubEntries(parent: string, subs: seq<SubItem>): (r: seq<SearchResult>)
    ensures |r| == |subs|
    ensures forall k :: 0 <= k < |subs| ==> r[k] == SearchResult(parent, subs[k].name, subs[k].id)
  {
    seq(|subs|, k requires 0 <= k < |subs| => SearchResult(parent, subs[k].name, subs[k].id))
  }

  /** One entry followed by its sub-items. */
  function ItemEntries(item: MenuItem): (r: seq<SearchResult>)
    ensures |r| == |item.subItems| + 1
  {
    [SearchResult("", item.name, item.id)] + SubEntries(item.name, item.subItems)
  }

  /** Every entry and sub-item of the menu as a would-be result, in menu order. */
  function Entries(menu: seq<MenuItem>): seq<SearchResult>
  {
    if menu == [] then [] else Entries(menu[..|menu| - 1]) + ItemEntries(menu[|menu| - 1])
  }

  /** The name contains the (already lowercased) query, ignoring case. */
  function LabelHit(query: string): SearchResult -> bool
  {
    (r: SearchResult) => Contains(Lower(r.name), query)
  }

  /** The search results: nothing for a blank query, otherwise every entry
      whose name contains the lowercased (untrimmed) query, in menu order. */
  function Search(menu: seq<MenuItem>, searchQuery: string): seq<SearchResult>
  {
    if Trim(searchQuery) == [] then [] else Keep(Entries(menu), LabelHit(Lower(searchQuery)))
  }

  /** A blank query finds nothing; otherwise a menu entry is found exactly
      when its name contains the query, ignoring case. */
  lemma SearchFinds(menu: seq<MenuItem>, searchQuery: string)
    ensures IsBlank(searchQuery) ==> Search(menu, searchQuery) == []
    ensures forall x :: x in Search(menu, searchQuery) <==>
              !IsBlank(searchQuery) && x in Entries(menu) && Contains(Lower(x.name), Lower(searchQuery))
  {
    TrimEmptyIffBlank(searchQuery);
    KeepMembers(Entries(menu), LabelHit(Lower(searchQuery)));
  }

  /** `searchResults`: for each entry, the entry if its name matches, then
      its matching sub-items. */
  method SearchResults(menu: seq<MenuItem>, searchQuery: string) returns (results: seq<SearchResult>)
    ensures results == Search(menu, searchQuery)
  {
    if Trim(searchQuery) == [] {
      return [];
    }
    var query := Lower(searchQuery);
    ghost var hit := LabelHit(query);
    results := [];
    var i := 0;
    while i < |menu|
      invariant 0 <= i <= |menu|
      invariant results == Keep(Entries(menu[..i]), hit)
    {
      var hits := ItemHits(menu[i], query);
      results := results + hits;
      ItemStep(menu, i, hit);
      i := i + 1;
    }
    assert menu[..i] == menu;
  }

  /** The body of the loop of `searchResults`: the entry if its name
      matches, then its matching sub-items. */
  method ItemHits(item: MenuItem, query: string) returns (hits: seq<SearchResult>)
    ensures hits == Keep(ItemEntries(item), LabelHit(query))
  {
    var top := SearchResult("", item.name, item.id);
    TopHit(top, query);
    KeepAppend([top], SubEntries(item.name, item.subItems), LabelHit(query));
    hits := [];
    if Contains(Lower(item.name), query) {
      hits := [top];
    }
    var subHits := SubItemHits(item.name, item.subItems, query);
    hits := hits + subHits;
  }

  /** The inner loop of `searchResults`: the matching sub-items of one
      entry, listed under the entry's name. */
  method SubItemHits(parent: string, subs: seq<SubItem>, query: string) returns (hits: seq<SearchResult>)
    ensures hits == Keep(SubEntries(parent, subs), LabelHit(query))
  {
    ghost var hit := LabelHit(query);
    ghost var entries := SubEntries(parent, subs);
    hits := [];
    var j := 0;
    while j < |subs|
      invariant 0 <= j <= |subs|
      invariant hits == Keep(entries[..j], hit)
    {
      var sub := subs[j];
      if Contains(Lower(sub.name), query) {
        hits := hits + [SearchResult(parent, sub.name, sub.id)];
      }
      assert entries[..j + 1] == entries[..j] + [entries[j]];
      KeepSnoc(entries[..j], entries[j], hit);
      j := j + 1;
    }
    assert entries[..j] == entries;
  }

  /** Filtering a single entry by the search condition. */
  lemma TopHit(top: SearchResult, query: string)
    ensures Keep([top], LabelHit(query)) == if Contains(Lower(top.name), query) then [top] else []
  {
    KeepSnoc([], top, LabelHit(query));
    assert [] + [top] == [top];
  }

  /** One more menu entry adds its own entries. */
  lemma ItemStep(menu: seq<MenuItem>, i: nat, hit: SearchResult -> bool)
    requires i < |menu|
    ensures Keep(Entries(menu[..i + 1]), hit) == Keep(Entries(menu[..i]), hit) + Keep(ItemEntries(menu[i]), hit)
  {
    assert menu[..i + 1][..i] == menu[..i];
    KeepAppend(Entries(menu[..i]), ItemEntries(menu[i]), hit);
  }

  /** Results keep the order of the menu. */
  lemma SearchInMenuOrder(menu: seq<MenuItem>, searchQuery: string)
    ensures IsSubsequence(Search(menu, searchQuery), Entries(menu))
  {
    if Trim(searchQuery) != [] {
      KeepIsSubsequence(Entries(menu), LabelHit(Lower(searchQuery)));
    }
  }

  /** A result is a top-level entry, listed with parent '', or a sub-item,
      listed under its entry's name. */
  lemma {:induction false} EntriesShape(menu: seq<MenuItem>, e: SearchResult)
    requires e in Entries(menu)
    ensures (exists k :: 0 <= k < |menu| && e == SearchResult("", menu[k].name, menu[k].id))
         || (exists k, m :: 0 <= k < |menu| && 0 <= m < |menu[k].subItems|
               && e == SearchResult(menu[k].name, menu[k].subItems[m].name, menu[k].subItems[m].id))
    decreases |menu|
  {
    var init := menu[..|menu| - 1];
    var item := menu[|menu| - 1];
    if e in Entries(init) {
      EntriesShape(init, e);
      if exists k :: 0 <= k < |init| && e == SearchResult("", init[k].name, init[k].id) {
        var k :| 0 <= k < |init| && e == SearchResult("", init[k].name, init[k].id);
        assert menu[k] == init[k];
      } else {
        var k, m :| 0 <= k < |init| && 0 <= m < |init[k].subItems|
               && e == SearchResult(init[k].name, init[k].subItems[m].name, init[k].subItems[m].id);
        assert menu[k] == init[k];
      }
    } else {
      var entries := ItemEntries(item);
      assert e in entries;
      var p :| 0 <= p < |entries| && entries[p] == e;
      if p == 0 {
        assert e == SearchResult("", menu[|menu| - 1].name, menu[|menu| - 1].id);
      } else {
        assert e == SearchResult(item.name, item.subItems[p - 1].name, item.subItems[p - 1].id);
      }
    }
  }

  /** `toggleMenu`: close the menu if it is the open one, otherwise open it
      alone. */
  function ToggleMenu(openMenu: Option<string>, menu: string): (r: Option<string>)
    ensures r == Some(menu) <==> openMenu != Some(menu)
    ensures forall other :: other != menu ==> r != Some(other)
  {
    if openMenu == Some(menu) then None else Some(menu)
  }

  /** The sidebar's own state. */
  class Panel {
    var openMenu: Option<string>
    var searchQuery: string

    constructor ()
      ensures openMenu == None && searchQuery == ""
    {
      openMenu := None;
      searchQuery := "";
    }

    method Toggle(menu: string)
      modifies this
      ensures openMenu == ToggleMenu(old(openMenu), menu) && searchQuery == old(searchQuery)
    {
      openMenu := ToggleMenu(openMenu, menu);
    }

    /** `handleNavigate`: show the page, clear the search and close the
        sidebar. */
    method HandleNavigate(shell: App.Shell, pageId: string)
      modifies this, shell
      ensures shell.currentPage == pageId && !shell.sidebarOpen
      ensures shell.isAuthenticated == old(shell.isAuthenticated) && shell.isLoading == old(shell.isLoading)
      ensures searchQuery == "" && openMenu == old(openMenu)
    {
      shell.Navigate(pageId);
      searchQuery := "";
      shell.CloseSidebar();
    }
  }
}
