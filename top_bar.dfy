/** The top navigation bar: which navigation link is highlighted for the
    current location, and the light/dark theme switch. */
module TopBar {
  import opened Strings

  /** The link targets of `navigationItems`, in menu order. */
  const NavigationUrls: seq<string> := ["/", "/streams", "/alerts", "/reports", "/devtool"]

  const ActiveClasses := "bg-primary/10 text-primary font-medium border-b-2 border-primary"
  const InactiveClasses := "hover:bg-muted/50 text-muted-foreground hover:text-foreground"

  /** `isActive(path)`: the dashboard link only on the exact root path, every
      other link on any location that starts with its path. */
  predicate IsActive(currentPath: string, path: string): (r: bool)
    ensures r ==> |path| <= |currentPath|
    ensures path == "/" ==> (r <==> currentPath == "/")
    ensures path != "/" ==> (r <==> |path| <= |currentPath| && currentPath[..|path|] == path)
  {
    if path == "/" then currentPath == "/" else StartsWith(currentPath, path)
  }

  /** `getNavClasses(path)` */
  function GetNavClasses(currentPath: string, path: string): (r: string)
    ensures r == ActiveClasses <==> IsActive(currentPath, path)
    ensures r == InactiveClasses <==> !IsActive(currentPath, path)
  {
    if IsActive(currentPath, path) then ActiveClasses else InactiveClasses
  }

  /** The dashboard link is highlighted on the root path and nowhere else. */
  lemma RootOnlyExact(currentPath: string)
    ensures IsActive(currentPath, "/") <==> currentPath == "/"
  {
  }

  /** Any other link is highlighted on its own path and on every path below it. */
  lemma ActiveBelow(path: string, rest: string)
    requires path != "/"
    ensures IsActive(path + rest, path)
  {
    assert (path + rest)[..|path|] == path;
  }

  /** The test is a plain string prefix, not a path-segment prefix: a sibling
      location whose name merely starts with a link's name highlights it. */
  lemma PrefixWithoutSegmentBoundary()
    ensures IsActive("/streams/42", "/streams")
    ensures IsActive("/streamsX", "/streams")
    ensures !IsActive("/stream", "/streams")
  {
    ActiveBelow("/streams", "/42");
    ActiveBelow("/streams", "X");
  }

  /** A location shorter than a link's path never highlights it. */
  lemma ShorterNeverActive(currentPath: string, path: string)
    requires path != "/" && |currentPath| < |path|
    ensures !IsActive(currentPath, path)
  {
  }

  /** Of two paths that both start a location, the shorter starts the longer. */
  lemma PrefixesNest(s: string, p: string, q: string)
    ensures StartsWith(s, p) && StartsWith(s, q) && |p| <= |q| ==> StartsWith(q, p)
  {
    if StartsWith(s, p) && StartsWith(s, q) && |p| <= |q| {
      assert q[..|p|] == s[..|q|][..|p|] == s[..|p|];
    }
  }

  /** The menu paths after the root differ in their first letter. */
  lemma MenuPathsDiffer(i: nat, j: nat)
    requires 1 <= i < |NavigationUrls| && 1 <= j < |NavigationUrls| && i != j
    ensures !StartsWith(NavigationUrls[j], NavigationUrls[i])
  {
    var p, q := NavigationUrls[i], NavigationUrls[j];
    assert |p| >= 2 && |q| >= 2 && p[1] != q[1];
    assert |p| <= |q| ==> q[..|p|][1] != p[1];
  }

  /** No menu path starts another, so on any location at most one link of the
      menu is highlighted. */
  lemma AtMostOneActive(currentPath: string, i: nat, j: nat)
    requires i < j < |NavigationUrls|
    ensures !(IsActive(currentPath, NavigationUrls[i]) && IsActive(currentPath, NavigationUrls[j]))
  {
    var p, q := NavigationUrls[i], NavigationUrls[j];
    if i == 0 {
      assert |q| > 1;
    } else {
      MenuPathsDiffer(i, j);
      MenuPathsDiffer(j, i);
      PrefixesNest(currentPath, p, q);
      PrefixesNest(currentPath, q, p);
    }
  }

  /** The theme button: dark switches to light, anything else (light, system,
      not yet known) switches to dark. */
  function ToggleTheme(theme: string): (r: string)
    ensures theme == "dark" <==> r == "light"
    ensures r == "light" || r == "dark"
  {
    if theme == "dark" then "light" else "dark"
  }

  /** Pressing the button twice from light or dark comes back to it; from any
      other theme two presses end on light. */
  lemma ToggleTwice(theme: string)
    ensures theme == "dark" || theme == "light" ==> ToggleTheme(ToggleTheme(theme)) == theme
    ensures theme != "dark" && theme != "light" ==> ToggleTheme(ToggleTheme(theme)) == "light"
  {
  }
}
