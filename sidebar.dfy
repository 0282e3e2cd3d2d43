/** The navigation sidebar: which menu keys are selected and open for a
    selection, where a click or a submenu toggle navigates, and when the
    mobile drawer asks to collapse. */
module Sidebar {
  import opened Wrappers
  import opened Strings
  import opened NavigationSlice
  import opened UrlSync

  /** A top-level menu entry and the names of its children; a child's menu
      key is the parent's key, a dash and the child's name. */
  datatype MenuItem = MenuItem(key: string, childNames: seq<string>)

  const MenuItems: seq<MenuItem> := [
    MenuItem("map", ["overview", "flowchart", "monitoring", "alerts"]),
    MenuItem("inputs", ["general", "consumption", "pipes", "chemistry", "reuse"]),
    MenuItem("calculate", ["models", "batch", "realtime", "optimization"]),
    MenuItem("outputs", ["reports", "analytics", "exports", "compliance"])
  ]

  /** The menu key of the child `name` of `parent`. */
  function ChildKey(parent: string, name: string): string
  {
    parent + "-" + name
  }

  /** A name made of lower-case ASCII letters only. */
  predicate PlainName(s: string)
  {
    s != [] && forall i :: 0 <= i < |s| ==> IsLowerAscii(s[i])
  }

  lemma PlainNameHasNoSeparator(s: string)
    requires PlainName(s)
    ensures '-' !in s && '/' !in s
  {
  }

  /** Every key and child name in the menu is a plain name. */
  lemma MenuNamesPlain(m: MenuItem, name: string)
    requires m in MenuItems && name in m.childNames
    ensures PlainName(m.key) && PlainName(name)
  {
  }

  /** The highlighted key: `section-child` when a child is selected, the
      section alone otherwise. */
  function SelectedKeys(nav: NavState): (keys: seq<string>)
    ensures |keys| == 1
    ensures nav.child != "" ==> keys[0] == nav.section + "-" + nav.child
    ensures nav.child == "" ==> keys[0] == nav.section
  {
    if nav.child != "" then [nav.section + "-" + nav.child] else [nav.section]
  }

  /** The expanded submenu: the section itself for the four known sections,
      none for anything else. */
  function OpenKeys(section: string): (keys: seq<string>)
    ensures IsSection(section) <==> keys == [section]
    ensures !IsSection(section) <==> keys == []
  {
    if section == "map" || section == "inputs" || section == "calculate" || section == "outputs" then [section] else []
  }

  /** The open keys handed to the menu: none while it is collapsed. */
  function MenuOpenKeys(collapsed: bool, section: string): seq<string>
  {
    if collapsed then [] else OpenKeys(section)
  }

  /** A collapsed menu opens no submenu; an expanded one opens exactly the
      active section when it is one of the four. */
  lemma MenuOpenKeysCases(section: string)
    ensures MenuOpenKeys(true, section) == []
    ensures MenuOpenKeys(false, section) == [section] <==> IsSection(section)
    ensures MenuOpenKeys(false, section) == [] <==> !IsSection(section)
  {
  }

  /** Where a click on a menu key navigates: a key with a dash goes to
      `/{first part}/{second part}` of its dash-split (later parts are
      dropped), any other key to `/{key}`. */
  function MenuClickPath(key: string): (path: string)
    ensures |path| >= 1 && path[0] == '/'
    ensures '-' !in key ==> path == "/" + key
  {
    if '-' in key then
      CountZeroIffAbsent(key, '-');
      var parts := Split(key, '-');
      "/" + parts[0] + "/" + parts[1]
    else "/" + key
  }

  /** The effect of a click: the navigation, and on mobile a request to
      collapse the drawer. */
  datatype ClickEffect = ClickEffect(navigateTo: string, requestCollapse: bool)

  function MenuClick(key: string, isMobile: bool): (e: ClickEffect)
    ensures e.navigateTo == MenuClickPath(key)
    ensures e.requestCollapse <==> isMobile
  {
    ClickEffect(MenuClickPath(key), isMobile)
  }

  /** Escape asks to collapse only on mobile and only while the drawer is open. */
  predicate EscapeRequestsCollapse(eventKey: string, isMobile: bool, collapsed: bool)
  {
    eventKey == "Escape" && isMobile && !collapsed
  }

  /** On mobile every click asks to collapse and on the desktop none does;
      Escape asks only on mobile and never once the drawer is collapsed. */
  lemma CollapseRequests(key: string, eventKey: string, isMobile: bool, collapsed: bool)
    ensures MenuClick(key, true).requestCollapse && !MenuClick(key, false).requestCollapse
    ensures eventKey != "Escape" ==> !EscapeRequestsCollapse(eventKey, isMobile, collapsed)
    ensures !EscapeRequestsCollapse(eventKey, isMobile, true)
    ensures !EscapeRequestsCollapse(eventKey, false, collapsed)
  {
  }

  /** Where toggling submenus navigates, if anywhere: nowhere while
      collapsed; to the active section when every submenu is closed; to the
      last opened key when it is a different, non-empty key. */
  function OpenChangeTarget(collapsed: bool, openKeys: seq<string>, activeSection: string): (r: Option<string>)
    ensures collapsed ==> r == None
    ensures !collapsed && openKeys == [] ==> r == Some("/" + activeSection)
    ensures !collapsed && openKeys != [] ==>
      var last := openKeys[|openKeys| - 1];
      (r.Some? <==> last != "" && last != activeSection) && (r.Some? ==> r.value == "/" + last)
  {
    if collapsed then None
    else if |openKeys| == 0 then Some("/" + activeSection)
    else
      var openKey := openKeys[|openKeys| - 1];
      if openKey != "" && openKey != activeSection then Some("/" + openKey) else None
  }

  /** A child key navigates to its parent section and child name. */
  lemma ClickChildKey(p: string, c: string)
    requires '-' !in p && '-' !in c
    ensures MenuClickPath(p + "-" + c) == "/" + p + "/" + c
  {
    SplitConcat(p, c, '-');
    assert p + "-" + c == p + ['-'] + c;
    SplitWithoutSeparator(p, '-');
    SplitWithoutSeparator(c, '-');
    assert (p + "-" + c)[|p|] == '-';
  }

  /** Everything after a second dash is ignored. */
  lemma ClickDropsLaterParts(p: string, c: string, rest: string)
    requires '-' !in p && '-' !in c
    ensures MenuClickPath(p + "-" + c + "-" + rest) == "/" + p + "/" + c
  {
    var k := p + "-" + c + "-" + rest;
    SplitConcat(p + "-" + c, rest, '-');
    assert k == (p + "-" + c) + ['-'] + rest;
    SplitConcat(p, c, '-');
    assert p + "-" + c == p + ['-'] + c;
    SplitWithoutSeparator(p, '-');
    SplitWithoutSeparator(c, '-');
    assert k[|p|] == '-';
  }

  /** Every child key holds exactly one dash, and the part before it is its
      parent's key. */
  lemma ChildKeysShape(m: MenuItem, name: string)
    requires m in MenuItems && name in m.childNames
    ensures Count(ChildKey(m.key, name), '-') == 1
    ensures Split(ChildKey(m.key, name), '-') == [m.key, name]
  {
    MenuNamesPlain(m, name);
    PlainNameHasNoSeparator(m.key);
    PlainNameHasNoSeparator(name);
    SplitConcat(m.key, name, '-');
    assert ChildKey(m.key, name) == m.key + ['-'] + name;
    SplitWithoutSeparator(m.key, '-');
    SplitWithoutSeparator(name, '-');
  }

  /** Clicking any menu key, then parsing the path the way the synchroniser
      does, highlights that same key again, from any prior selection. */
  lemma MenuKeyRoundTrip(st: NavState, m: MenuItem, name: string)
    requires m in MenuItems && name in m.childNames
    ensures SelectedKeys(SyncState(st, MenuClickPath(m.key))) == [m.key]
    ensures SelectedKeys(SyncState(st, MenuClickPath(ChildKey(m.key, name)))) == [ChildKey(m.key, name)]
  {
    MenuNamesPlain(m, name);
    PlainNameHasNoSeparator(m.key);
    PlainNameHasNoSeparator(name);
    assert IsSection(m.key);
    ParseSection(m.key);
    ClickChildKey(m.key, name);
    ParseSectionChild(m.key, name);
  }
}
