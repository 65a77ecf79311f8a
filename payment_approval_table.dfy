/** The payment approval table (src/components/payments/PaymentApprovalTable.tsx): a page of
    five payments cut from the list with `slice`, its own list of selected ids, the header
    select-all, the row toggle, the pager and the action buttons, which hand the selection to
    the page through callbacks. */
module PaymentApprovalTable {
  import opened Wrappers
  import opened Seqs
  import opened Selection
  import opened PaymentModel

  const ItemsPerPage: nat := 5

  /** `payments.slice(indexOfFirstItem, indexOfLastItem)` for `currentPage`. */
  function CurrentItems(payments: seq<Payment>, currentPage: int): seq<Payment>
  {
    var last := currentPage * ItemsPerPage;
    Slice(payments, last - ItemsPerPage, last)
  }

  /** `Math.ceil(payments.length / itemsPerPage)`. */
  function TotalPages(len: nat): (n: nat)
    ensures n * ItemsPerPage >= len
    ensures len > 0 ==> (n - 1) * ItemsPerPage < len
    ensures n == 0 <==> len == 0
  {
    (len + ItemsPerPage - 1) / ItemsPerPage
  }

  function Min(a: int, b: int): int { if a < b then a else b }

  /** Page `p` (counted from 1) holds the payments from `(p-1)*5` up to `p*5`, cut at the end
      of the list: at most five, none past the end. */
  lemma PageContents(payments: seq<Payment>, p: int)
    requires p >= 1
    ensures var from := Min((p - 1) * ItemsPerPage, |payments|);
      CurrentItems(payments, p) == payments[from..Min(p * ItemsPerPage, |payments|)]
    ensures |CurrentItems(payments, p)| <= ItemsPerPage
    ensures (p - 1) * ItemsPerPage >= |payments| ==> CurrentItems(payments, p) == []
  {
  }

  /** Page 0, which Next can set when there are no payments, is empty whatever the list: the
      slice runs from five before the end to 0. */
  lemma PageZeroIsEmpty(payments: seq<Payment>)
    ensures CurrentItems(payments, 0) == []
  {
  }

  /** Pages 1 to `k` in order. */
  function FirstPages(payments: seq<Payment>, k: nat): seq<Payment>
  {
    if k == 0 then [] else FirstPages(payments, k - 1) + CurrentItems(payments, k)
  }

  lemma {:induction false} FirstPagesArePrefix(payments: seq<Payment>, k: nat)
    ensures FirstPages(payments, k) == payments[..Min(k * ItemsPerPage, |payments|)]
  {
    if k > 0 {
      FirstPagesArePrefix(payments, k - 1);
      PageContents(payments, k);
      var a, b := Min((k - 1) * ItemsPerPage, |payments|), Min(k * ItemsPerPage, |payments|);
      assert payments[..a] + payments[a..b] == payments[..b];
    }
  }

  /** The pages 1 to `totalPages` together are the whole list, each payment once, in order. */
  lemma PagesCoverAll(payments: seq<Payment>)
    ensures FirstPages(payments, TotalPages(|payments|)) == payments
  {
    FirstPagesArePrefix(payments, TotalPages(|payments|));
  }

  /** `selectedPayments.includes(id)` and the toggle of `handleSelectPayment`. */
  function IdKey(id: string): string { id }

  function ToggleId(selected: seq<string>, id: string): seq<string>
  {
    ToggleBy(selected, id, IdKey)
  }

  /** The row toggle selects an unselected id and deselects a selected one (every copy of
      it), and leaves every other id as it was. */
  lemma ToggleIdFlips(selected: seq<string>, id: string, other: string)
    ensures id in ToggleId(selected, id) <==> id !in selected
    ensures other != id ==> (other in ToggleId(selected, id) <==> other in selected)
  {
    ToggleFlipsOnlyThatKey(selected, id, IdKey, id);
    ToggleFlipsOnlyThatKey(selected, id, IdKey, other);
    HasKeyIsIn(selected, id);
    HasKeyIsIn(selected, other);
    HasKeyIsIn(ToggleId(selected, id), id);
    HasKeyIsIn(ToggleId(selected, id), other);
  }

  lemma HasKeyIsIn(s: seq<string>, k: string)
    ensures HasKey(s, IdKey, k) <==> k in s
  {
    if k in s {
      var i :| 0 <= i < |s| && s[i] == k;
      assert IdKey(s[i]) == k;
    }
  }

  /** `handleSelectAll`: clear when the selection is as long as the page, otherwise exactly
      the page's ids in page order. Only the lengths are compared. */
  function SelectAll(selected: seq<string>, page: seq<Payment>): (r: seq<string>)
    ensures |selected| == |page| ==> r == []
    ensures |selected| != |page| ==> |r| == |page| && forall i :: 0 <= i < |page| ==> r[i] == page[i].id
  {
    if |selected| == |page| then [] else Ids(page)
  }

  /** Select-all compares lengths, not ids: selecting five payments on page 1 and moving to
      a full page 2 shows page 2's header checked, and clicking it clears the selection. */
  lemma SelectAllIsLengthBased(selected: seq<string>, page: seq<Payment>)
    requires |selected| == |page| && |page| > 0
    requires forall i :: 0 <= i < |page| ==> page[i].id !in selected
    ensures HeaderChecked(selected, page) && SelectAll(selected, page) == []
  {
  }

  /** The header checkbox. */
  predicate HeaderChecked(selected: seq<string>, page: seq<Payment>)
  {
    |selected| == |page| && |page| > 0
  }

  /** Clicking the header of a page whose header is not checked selects exactly the page;
      clicking it again clears everything. */
  lemma SelectAllTwice(selected: seq<string>, page: seq<Payment>)
    requires |page| > 0 && !HeaderChecked(selected, page)
    ensures HeaderChecked(SelectAll(selected, page), page)
    ensures SelectAll(SelectAll(selected, page), page) == []
  {
  }

  class PaymentApprovalTableState {
    var selectedPayments: seq<string>
    var currentPage: int

    /** Prev never goes below 1 and Next never below 0, so the page is never negative. */
    ghost predicate Valid()
      reads this
    {
      currentPage >= 0
    }

    /** Mounting the table: nothing selected, page 1. */
    constructor ()
      ensures selectedPayments == [] && currentPage == 1
      ensures Valid()
    {
      selectedPayments := [];
      currentPage := 1;
    }

    function Page(payments: seq<Payment>): seq<Payment>
      reads this
    {
      CurrentItems(payments, currentPage)
    }

    method HandleSelectAll(payments: seq<Payment>)
      modifies this
      ensures selectedPayments == SelectAll(old(selectedPayments), CurrentItems(payments, currentPage))
      ensures currentPage == old(currentPage)
    {
      var currentItems := CurrentItems(payments, currentPage);
      if |selectedPayments| == |currentItems| {
        selectedPayments := [];
      } else {
        selectedPayments := Ids(currentItems);
      }
    }

    /** `handleSelectPayment`; no duplicate is ever introduced. */
    method HandleSelectPayment(id: string)
      modifies this
      ensures selectedPayments == ToggleId(old(selectedPayments), id)
      ensures UniqueKeys(old(selectedPayments), IdKey) ==> UniqueKeys(selectedPayments, IdKey)
      ensures currentPage == old(currentPage)
    {
      if UniqueKeys(selectedPayments, IdKey) {
        ToggleKeepsUniqueKeys(selectedPayments, id, IdKey);
      }
      HasKeyIsIn(selectedPayments, id);
      if id in selectedPayments {
        selectedPayments := Filter(selectedPayments, KeyDiffers(IdKey, id));
      } else {
        selectedPayments := selectedPayments + [id];
      }
    }

    /** Previous: `Math.max(prev - 1, 1)`. */
    method Previous()
      modifies this
      ensures currentPage == (if old(currentPage) - 1 > 1 then old(currentPage) - 1 else 1)
      ensures selectedPayments == old(selectedPayments)
      ensures Valid()
    {
      currentPage := if currentPage - 1 > 1 then currentPage - 1 else 1;
    }

    /** Next: `Math.min(prev + 1, totalPages)`; with no payments that is page 0. */
    method Next(payments: seq<Payment>)
      requires Valid()
      modifies this
      ensures currentPage == Min(old(currentPage) + 1, TotalPages(|payments|))
      ensures selectedPayments == old(selectedPayments)
      ensures Valid()
    {
      currentPage := Min(currentPage + 1, TotalPages(|payments|));
    }

    /** A page link, one for each of `1..totalPages`. */
    method GoToPage(payments: seq<Payment>, page: int)
      requires 1 <= page <= TotalPages(|payments|)
      modifies this
      ensures currentPage == page
      ensures selectedPayments == old(selectedPayments)
      ensures Valid()
    {
      currentPage := page;
    }

    /** Reject, Approve and Reverse TXNS: enabled exactly when something is selected, and
        then they pass the whole selection. */
    method ClickBulkAction() returns (request: Option<seq<string>>)
      ensures request.Some? <==> |selectedPayments| != 0
      ensures request.Some? ==> request.value == selectedPayments
    {
      if |selectedPayments| == 0 {
        request := None;
      } else {
        request := Some(selectedPayments);
      }
    }

    /** Reverse Payment: enabled exactly when one id is selected, and passes that id. */
    method ClickReversePayment() returns (request: Option<string>)
      ensures request.Some? <==> |selectedPayments| == 1
      ensures request.Some? ==> [request.value] == selectedPayments
    {
      if |selectedPayments| == 1 {
        request := Some(selectedPayments[0]);
      } else {
        request := None;
      }
    }
  }
}
