/** The page header (src/components/site-header.tsx): the page title by
    exact pathname and the module name by longest matching prefix. */
module SiteHeader {
  import opened Common

  const DefaultTitle := "My Dora"

  /** `pageTitles`. */
  const PageTitles: map<string, string> := map[
    "/muhasebe" := "Genel Bak\U{0131}\U{015F}",
    "/muhasebe/defter" := "Defter",
    "/muhasebe/kategoriler" := "Kategoriler",
    "/muhasebe/hesaplar" := "Hesaplar",
    "/dashboard" := "Dashboard"
  ]

  /** `moduleNames`, in key order. */
  const ModuleNames: seq<(string, string)> := [
    ("/muhasebe", "Muhasebe"),
    ("/dashboard", "Dashboard")
  ]

  /** The header title: the pathname's own title, or "My Dora". */
  function Title(titles: map<string, string>, pathname: string): (r: string)
    ensures pathname in titles && titles[pathname] != "" ==> r == titles[pathname]
    ensures pathname !in titles ==> r == DefaultTitle
    ensures pathname in titles && titles[pathname] == "" ==> r == DefaultTitle
  {
    if pathname in titles && titles[pathname] != "" then titles[pathname] else DefaultTitle
  }

  /** The keys that are prefixes of the pathname, in key order. */
  function MatchingPrefixes(names: seq<(string, string)>, pathname: string): (r: seq<(string, string)>)
    ensures forall e :: e in r <==> e in names && StartsWith(pathname, e.0)
  {
    if names == [] then []
    else
      var last := names[|names| - 1];
      MatchingPrefixes(names[..|names| - 1], pathname) + (if StartsWith(pathname, last.0) then [last] else [])
  }

  function KeyLength(e: (string, string)): int {
    |e.0|
  }

  /** `getModuleName`: nothing when no key is a prefix of the pathname,
      otherwise the name under the longest such key. */
  function ModuleName(names: seq<(string, string)>, pathname: string): (r: Option<string>)
    ensures r.None? <==> forall e :: e in names ==> !StartsWith(pathname, e.0)
    ensures r.Some? ==>
      exists e :: e in names && StartsWith(pathname, e.0) && r.value == e.1
        && forall f :: f in names && StartsWith(pathname, f.0) ==> |f.0| <= |e.0|
  {
    var ms := MatchingPrefixes(names, pathname);
    if ms == [] then None
    else
      var i := LongestAt(ms, KeyLength);
      assert ms[i] in ms;
      assert forall f :: f in ms ==> KeyLength(f) <= KeyLength(ms[i]);
      Some(ms[i].1)
  }

  /** Every "/muhasebe..." path is in the "Muhasebe" module. */
  lemma MuhasebePaths(pathname: string)
    requires StartsWith(pathname, "/muhasebe")
    ensures ModuleName(ModuleNames, pathname) == Some("Muhasebe")
    ensures ModuleName(ModuleNames, "/") == None
  {
    assert !StartsWith(pathname, "/dashboard") by {
      assert pathname[1] == "/muhasebe"[1] == 'm';
      assert "/dashboard"[1] == 'd';
    }
    var r := ModuleName(ModuleNames, pathname);
    assert ModuleNames[0] in ModuleNames;
    forall e | e in ModuleNames && StartsWith(pathname, e.0) ensures e == ModuleNames[0] {
      var k :| 0 <= k < |ModuleNames| && ModuleNames[k] == e;
      assert k != 1;
    }
    assert !StartsWith("/", "/muhasebe") && !StartsWith("/", "/dashboard");
    forall e | e in ModuleNames ensures !StartsWith("/", e.0) {
      var k :| 0 <= k < |ModuleNames| && ModuleNames[k] == e;
    }
  }

  /** The header's two texts for a pathname. */
  function Header(pathname: string): (string, Option<string>) {
    (Title(PageTitles, pathname), ModuleName(ModuleNames, pathname))
  }

  /** A listed pathname shows its title; any other shows "My Dora". */
  lemma KnownHeaderTitles(pathname: string)
    requires pathname !in PageTitles
    ensures Header("/muhasebe/defter").0 == "Defter"
    ensures Header(pathname).0 == DefaultTitle
  {
  }
}
