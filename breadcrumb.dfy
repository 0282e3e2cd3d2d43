/** The breadcrumb trail above every page: home, then the section, the child
    and, on the chemistry page only, the open unit. */
module Breadcrumb {
  import opened Wrappers
  import opened Strings
  import opened NavigationSlice
  import opened TranslationsSlice
  import opened UrlSync

  /** One crumb: its key, its title, and the path a click navigates to
      (the unit crumb has none). */
  datatype Crumb = Crumb(key: string, title: string, link: Option<string>)

  /** The home title: `breadcrumb.home`, else `nav.map`, else "Map". */
  function HomeTitle(t: Dictionary): string
  {
    Lookup(t, "breadcrumb.home", Lookup(t, "nav.map", "Map"))
  }

  /** A section or child title: `nav.{name}`, else the name with its first
      character upper-cased. */
  function NameTitle(t: Dictionary, name: string): string
  {
    Lookup(t, "nav." + name, CapitalizeFirst(name))
  }

  /** A unit title: `nav.{camelCase(unit)}`, else the unit's words
      capitalised and joined by spaces. */
  function UnitTitle(t: Dictionary, unit: string): string
  {
    Lookup(t, "nav." + CamelCase(unit), FormatUnitName(unit))
  }

  /** Whether the trail shows a unit crumb. */
  predicate ShowsUnit(nav: NavState)
  {
    nav.unit != "" && nav.section == "inputs" && nav.child == "chemistry"
  }

  /** Builds the trail by appending crumbs one level at a time. */
  method BuildBreadcrumbItems(nav: NavState, t: Dictionary) returns (items: seq<Crumb>)
    ensures 1 <= |items| <= 4
    ensures items[0] == Crumb("home", HomeTitle(t), Some("/"))
    ensures |items| >= 2 <==> nav.section != "" && nav.section != "map"
    ensures |items| >= 3 <==> |items| >= 2 && nav.child != ""
    ensures |items| == 4 <==> |items| >= 3 && ShowsUnit(nav)
    ensures |items| >= 2 ==> items[1] == Crumb(nav.section, NameTitle(t, nav.section), Some("/" + nav.section))
    ensures |items| >= 3 ==> items[2] == Crumb(nav.child, NameTitle(t, nav.child), Some("/" + nav.section + "/" + nav.child))
    ensures |items| == 4 ==> items[3] == Crumb(nav.unit, UnitTitle(t, nav.unit), None)
  {
    items := [Crumb("home", HomeTitle(t), Some("/"))];
    if nav.section != "" && nav.section != "map" {
      items := items + [Crumb(nav.section, NameTitle(t, nav.section), Some("/" + nav.section))];
      if nav.child != "" {
        items := items + [Crumb(nav.child, NameTitle(t, nav.child), Some("/" + nav.section + "/" + nav.child))];
        if ShowsUnit(nav) {
          items := items + [Crumb(nav.unit, UnitTitle(t, nav.unit), None)];
        }
      }
    }
  }

  /** Following a crumb's link selects that crumb's level again: home
      lands on the bare map, the section link on the section alone, the
      child link on the section and child with the unit kept only where the
      synchroniser keeps it. */
  lemma CrumbLinksResync(st: NavState, nav: NavState)
    requires IsSection(nav.section) && nav.child != "" && '/' !in nav.child
    ensures SyncState(st, "/") == NavigationSlice.InitialState
    ensures var r := SyncState(st, "/" + nav.section); r.section == nav.section && r.child == ""
    ensures var r := SyncState(st, "/" + nav.section + "/" + nav.child); r.section == nav.section && r.child == nav.child
  {
    RootIsMap(st);
    ParseSection(nav.section);
    ParseSectionChild(nav.section, nav.child);
  }

  /** For a two-word unit such as `cooling-towers`, the translation key is
      the camel-cased name (`nav.coolingTowers`) and the fallback title the
      two words capitalised (`Cooling Towers`). */
  lemma TwoWordUnitNames(w1: string, x: char, w2: string)
    requires '-' !in w1 && '-' !in w2 && IsLowerAscii(x)
    ensures CamelCase(w1 + "-" + [x] + w2) == w1 + [UpperChar(x)] + w2
    ensures FormatUnitName(w1 + "-" + [x] + w2) == CapitalizeFirst(w1) + " " + [UpperChar(x)] + w2
  {
    var tail := [x] + w2;
    assert w1 + "-" + [x] + w2 == w1 + ['-', x] + w2 == w1 + "-" + tail;
    CamelCaseStep(w1, x, w2);
    CamelCaseWithoutDash(w2);
    assert '-' !in tail;
    TwoWordFormat(w1, tail);
    assert CapitalizeFirst(tail) == [UpperChar(x)] + w2;
  }

  lemma TwoWordFormat(w1: string, w2: string)
    requires '-' !in w1 && '-' !in w2
    ensures FormatUnitName(w1 + "-" + w2) == CapitalizeFirst(w1) + " " + CapitalizeFirst(w2)
  {
    assert w1 + "-" + w2 == w1 + ['-'] + w2;
    SplitConcat(w1, w2, '-');
    SplitWithoutSeparator(w1, '-');
    SplitWithoutSeparator(w2, '-');
    assert Split(w1 + "-" + w2, '-') == [w1, w2];
    var words := CapitalizeAll([w1, w2]);
    assert words[0] == CapitalizeFirst(w1);
    assert words[1] == CapitalizeFirst(w2);
    assert words == [CapitalizeFirst(w1), CapitalizeFirst(w2)];
    assert words[1..] == [CapitalizeFirst(w2)];
    assert Join(words, ' ') == CapitalizeFirst(w1) + [' '] + CapitalizeFirst(w2);
    assert FormatUnitName(w1 + "-" + w2) == Join(words, ' ');
  }
}
