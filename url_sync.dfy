/** The URL-to-store synchroniser of the application shell: on every change
    of location the path is parsed into a section, child and unit, which are
    then dispatched into the navigation slice in a fixed order. */
module UrlSync {
  import opened Strings
  import opened NavigationSlice

  /** What the path parser extracts. */
  datatype Route = Route(section: string, child: string, unit: string)

  predicate IsSection(s: string)
  {
    s == "map" || s == "inputs" || s == "calculate" || s == "outputs"
  }

  /** The section is chosen by string prefix, in the order inputs,
      calculate, outputs, map; the child is element 2 of `path.split('/')`
      under every section, the unit element 3 under inputs only. */
  function ParsePath(path: string): (r: Route)
    ensures IsSection(r.section)
    ensures r.unit != "" ==> r.section == "inputs"
    ensures '/' !in r.child && '/' !in r.unit
    ensures !StartsWith(path, "/inputs") && !StartsWith(path, "/calculate")
              && !StartsWith(path, "/outputs") && !StartsWith(path, "/map")
            ==> r == Route("map", "", "")
  {
    var parts := Split(path, '/');
    var child := if |parts| > 2 then parts[2] else "";
    if StartsWith(path, "/inputs") then Route("inputs", child, if |parts| > 3 then parts[3] else "")
    else if StartsWith(path, "/calculate") then Route("calculate", child, "")
    else if StartsWith(path, "/outputs") then Route("outputs", child, "")
    else if StartsWith(path, "/map") then Route("map", child, "")
    else Route("map", "", "")
  }

  /** The selection after one synchronisation: section, then child, then the
      unit only when the parsed unit is non-empty. */
  function SyncState(st: NavState, path: string): NavState
  {
    var r := ParsePath(path);
    var afterChild := WithChild(WithSection(st, r.section), r.child);
    if r.unit != "" then WithUnit(afterChild, r.unit) else afterChild
  }

  /** The effect run on a change of location: three ordered dispatches. */
  method SyncFromLocation(store: NavigationStore, path: string)
    modifies store
    ensures store.State() == SyncState(old(store.State()), path)
    ensures store.Persisted()
  {
    var r := ParsePath(path);
    store.SetActiveSection(r.section);
    store.SetActiveChild(r.child);
    if r.unit != "" {
      store.SetActiveUnit(r.unit);
    }
  }

  /** A path that fails to start with `p` at the first differing character. */
  lemma NotPrefixAt(s: string, p: string, i: nat)
    requires i < |p| && i < |s| && s[i] != p[i]
    ensures !StartsWith(s, p)
  {
    if |p| <= |s| {
      assert s[..|p|][i] == s[i];
    }
  }

  /** `"/" + a + "/" + b` splits into `["", a, b]`. */
  lemma SplitTwoSegments(a: string, b: string)
    requires '/' !in a && '/' !in b
    ensures Split("/" + a + "/" + b, '/') == ["", a, b]
  {
    SplitConcat("", a + "/" + b, '/');
    assert "/" + a + "/" + b == "" + ['/'] + (a + "/" + b);
    SplitConcat(a, b, '/');
    assert a + "/" + b == a + ['/'] + b;
    SplitWithoutSeparator(a, '/');
    SplitWithoutSeparator(b, '/');
  }

  /** `"/" + a + "/" + b + "/" + c` splits into `["", a, b, c]`. */
  lemma SplitThreeSegments(a: string, b: string, c: string)
    requires '/' !in a && '/' !in b && '/' !in c
    ensures Split("/" + a + "/" + b + "/" + c, '/') == ["", a, b, c]
  {
    SplitTwoSegments(a, b);
    SplitConcat("/" + a + "/" + b, c, '/');
    assert "/" + a + "/" + b + "/" + c == ("/" + a + "/" + b) + ['/'] + c;
    SplitWithoutSeparator(c, '/');
  }

  /** `"/" + a` splits into `["", a]`. */
  lemma SplitOneSegment(a: string)
    requires '/' !in a
    ensures Split("/" + a, '/') == ["", a]
  {
    SplitConcat("", a, '/');
    assert "/" + a == "" + ['/'] + a;
    SplitWithoutSeparator(a, '/');
  }

  /** Which prefix test a path `"/" + sec + rest` passes first, for each of
      the four sections. */
  lemma PrefixOfSection(sec: string, rest: string)
    requires IsSection(sec)
    ensures var s := "/" + sec + rest;
      && (StartsWith(s, "/inputs") <==> sec == "inputs")
      && (sec != "inputs" ==> (StartsWith(s, "/calculate") <==> sec == "calculate"))
      && (sec != "inputs" && sec != "calculate" ==> (StartsWith(s, "/outputs") <==> sec == "outputs"))
      && (sec == "map" ==> StartsWith(s, "/map"))
  {
    var s := "/" + sec + rest;
    assert s[1] == sec[0];
    assert s[..|sec| + 1] == "/" + sec;
    if sec != "inputs" {
      NotPrefixAt(s, "/inputs", 1);
    }
    if sec != "calculate" && sec != "inputs" {
      NotPrefixAt(s, "/calculate", 1);
    }
    if sec == "map" {
      NotPrefixAt(s, "/outputs", 1);
    }
  }

  /** `/{section}/{child}` parses to that section and child, no unit. */
  lemma ParseSectionChild(sec: string, c: string)
    requires IsSection(sec) && '/' !in c
    ensures ParsePath("/" + sec + "/" + c) == Route(sec, c, "")
  {
    assert '/' !in sec;
    SplitTwoSegments(sec, c);
    PrefixOfSection(sec, "/" + c);
    assert "/" + sec + "/" + c == "/" + sec + ("/" + c);
  }

  /** `/{section}` parses to that section, no child and no unit. */
  lemma ParseSection(sec: string)
    requires IsSection(sec)
    ensures ParsePath("/" + sec) == Route(sec, "", "")
  {
    assert '/' !in sec;
    SplitOneSegment(sec);
    PrefixOfSection(sec, "");
    assert "/" + sec + "" == "/" + sec;
  }

  /** `/inputs/{child}/{unit}` parses to all three levels. */
  lemma ParseInputsUnit(c: string, u: string)
    requires '/' !in c && '/' !in u
    ensures ParsePath("/inputs/" + c + "/" + u) == Route("inputs", c, u)
  {
    SplitThreeSegments("inputs", c, u);
    PrefixOfSection("inputs", "/" + c + "/" + u);
    assert "/inputs/" + c + "/" + u == "/" + "inputs" + "/" + c + "/" + u;
    assert "/inputs/" + c + "/" + u == "/" + "inputs" + ("/" + c + "/" + u);
  }

  /** Under every section but inputs a third segment is ignored. */
  lemma ExtraSegmentIgnored(sec: string, c: string, x: string)
    requires IsSection(sec) && sec != "inputs" && '/' !in c && '/' !in x
    ensures ParsePath("/" + sec + "/" + c + "/" + x) == Route(sec, c, "")
  {
    assert '/' !in sec;
    SplitThreeSegments(sec, c, x);
    PrefixOfSection(sec, "/" + c + "/" + x);
    assert "/" + sec + "/" + c + "/" + x == "/" + sec + ("/" + c + "/" + x);
  }

  /** `/inputs/chemistry/{unit}` reaches exactly that unit from any selection. */
  lemma SyncReachesUnit(st: NavState, u: string)
    requires u != "" && '/' !in u
    ensures SyncState(st, "/inputs/chemistry/" + u) == NavState("inputs", "chemistry", u, "")
  {
    ParseInputsUnit("chemistry", u);
    assert "/inputs/chemistry/" + u == "/inputs/" + "chemistry" + "/" + u;
  }

  /** Navigating to `/inputs/chemistry` while a unit is open keeps the unit
      and its sub-tab. */
  lemma SyncKeepsUnitUnderChemistry(st: NavState)
    requires st.section == "inputs" && st.child == "chemistry"
    ensures SyncState(st, "/inputs/chemistry") == st
  {
    ParseSectionChild("inputs", "chemistry");
    assert "/inputs/chemistry" == "/" + "inputs" + "/" + "chemistry";
  }

  /** The synchroniser does not enforce the chemistry-only rule for units. */
  lemma SyncUnitUnderOtherChild(st: NavState)
    ensures SyncState(st, "/inputs/general/x") == NavState("inputs", "general", "x", "")
  {
    ParseInputsUnit("general", "x");
    assert "/inputs/general/x" == "/inputs/" + "general" + "/" + "x";
  }

  /** The map child survives although `setActiveSection('map')` clears it
      first: the child is dispatched afterwards. */
  lemma SyncMapChild(st: NavState)
    ensures SyncState(st, "/map/overview") == NavState("map", "overview", "", "")
  {
    ParseSectionChild("map", "overview");
    assert "/map/overview" == "/" + "map" + "/" + "overview";
  }

  /** A path under no known section, the root path included, lands on the
      bare map selection. */
  lemma SyncUnknownPath(st: NavState, path: string)
    requires !StartsWith(path, "/inputs") && !StartsWith(path, "/calculate")
    requires !StartsWith(path, "/outputs") && !StartsWith(path, "/map")
    ensures SyncState(st, path) == InitialState
  {
  }

  lemma RootIsMap(st: NavState)
    ensures SyncState(st, "/") == InitialState
  {
  }

  /** Prefix matching is not segment matching: `/inputsX` is an inputs path. */
  lemma PrefixNotSegment()
    ensures ParsePath("/inputsX").section == "inputs"
  {
    assert "/inputsX"[..7] == "/inputs";
  }
}
