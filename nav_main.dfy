/** The sidebar's active-item rule (src/components/nav-main.tsx). */
module NavMain {
  import opened Common

  const AccountingUrl := "/accounting"

  /** An item is active on its own url and, except for "/accounting", on
      any pathname its url is a plain string prefix of. */
  function IsActive(pathname: string, url: string): (r: bool)
    ensures pathname == url ==> r
    ensures url == AccountingUrl ==> (r <==> pathname == url)
    ensures url != AccountingUrl ==> (r <==> StartsWith(pathname, url))
    ensures pathname != url && !StartsWith(pathname, url) ==> !r
  {
    pathname == url || (url != AccountingUrl && StartsWith(pathname, url))
  }

  /** There is no separator check: "/accounting/ledgerx" activates the
      "/accounting/ledger" item, while subpages of "/accounting" leave its
      item inactive. */
  lemma PrefixWithoutSeparator()
    ensures IsActive("/accounting/ledgerx", "/accounting/ledger")
    ensures !IsActive("/accounting/ledger", AccountingUrl)
  {
    assert StartsWith("/accounting/ledgerx", "/accounting/ledger");
  }
}
