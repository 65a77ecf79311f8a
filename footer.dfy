/** The footer under the template, recipient and quick-entry tables: "Showing 1-n of len
    entries", with page buttons that do nothing but are disabled when one page holds
    everything. */
module ListFooter {

  /** Rows per page the footers assume. */
  const PageSize: nat := 10

  /** `Math.min(len, 10)`: the last row number shown. */
  function ShownCount(len: nat): (n: nat)
    ensures n <= PageSize && n <= len
    ensures n == len || n == PageSize
  {
    if len < PageSize then len else PageSize
  }

  /** `disabled={len <= 10}`: the page buttons are disabled exactly when every entry is shown. */
  function PageButtonsDisabled(len: nat): (disabled: bool)
    ensures disabled <==> ShownCount(len) == len
  {
    len <= PageSize
  }
}
