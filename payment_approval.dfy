/** The payment approval page (src/pages/PaymentApproval.tsx): the payments, the page's own
    list of ids an action applies to (separate from the table's selection), the approve and
    reject confirmation dialogs and the reversal view, and the status updates they confirm. */
module PaymentApproval {
  import opened Seqs
  import opened Status
  import opened PaymentModel

  /** `payments.map(p => ids.includes(p.id) ? { ...p, status } : p)`. */
  function WithStatus(payments: seq<Payment>, ids: seq<string>, status: StatusType): (r: seq<Payment>)
    ensures |r| == |payments|
    ensures forall i :: 0 <= i < |payments| ==>
      r[i] == if payments[i].id in ids then payments[i].(status := status) else payments[i]
  {
    if payments == [] then []
    else
      var head := if payments[0].id in ids then payments[0].(status := status) else payments[0];
      [head] + WithStatus(payments[1..], ids, status)
  }

  /** The update keeps the ids and their order, and every field but the status. */
  lemma WithStatusKeepsIds(payments: seq<Payment>, ids: seq<string>, status: StatusType)
    ensures Ids(WithStatus(payments, ids, status)) == Ids(payments)
    ensures forall i :: 0 <= i < |payments| ==>
      WithStatus(payments, ids, status)[i].(status := payments[i].status) == payments[i]
  {
  }

  /** Updating twice with the same ids and status is updating once; updating no ids changes
      nothing. */
  lemma WithStatusIdempotent(payments: seq<Payment>, ids: seq<string>, status: StatusType)
    ensures WithStatus(WithStatus(payments, ids, status), ids, status) == WithStatus(payments, ids, status)
    ensures WithStatus(payments, [], status) == payments
  {
  }

  function IdIn(ids: seq<string>): Payment -> bool
  {
    (p: Payment) => p.id in ids
  }

  /** `selectedPayments`: the payments whose ids are listed, in list order. */
  function SelectedPayments(payments: seq<Payment>, ids: seq<string>): seq<Payment>
  {
    Filter(payments, IdIn(ids))
  }

  lemma SelectedPaymentsMembership(payments: seq<Payment>, ids: seq<string>, p: Payment)
    ensures p in SelectedPayments(payments, ids) <==> p in payments && p.id in ids
    ensures IsSubsequence(SelectedPayments(payments, ids), payments)
  {
    FilterIsSubsequence(payments, IdIn(ids));
    if p in payments && p.id in ids {
      var i :| 0 <= i < |payments| && payments[i] == p;
      assert IdIn(ids)(payments[i]);
    }
  }

  /** Ids that name no payment are ignored. */
  lemma UnknownIdsIgnored(payments: seq<Payment>, ids: seq<string>, unknown: seq<string>)
    requires forall i :: 0 <= i < |payments| ==> payments[i].id !in unknown
    ensures SelectedPayments(payments, ids + unknown) == SelectedPayments(payments, ids)
  {
    FilterExt(payments, IdIn(ids + unknown), IdIn(ids));
  }

  /** After an update every listed payment has the new status. */
  lemma SelectedHaveStatus(payments: seq<Payment>, ids: seq<string>, status: StatusType)
    ensures forall p :: p in SelectedPayments(WithStatus(payments, ids, status), ids) ==> p.status == status
  {
    forall p | p in SelectedPayments(WithStatus(payments, ids, status), ids) ensures p.status == status {
      SelectedPaymentsMembership(WithStatus(payments, ids, status), ids, p);
    }
  }

  class PaymentApprovalPage {
    var payments: seq<Payment>
    var showReversal: bool
    var selectedPaymentIds: seq<string>
    var showApproveDialog: bool
    var showRejectDialog: bool

    constructor (mockPayments: seq<Payment>)
      ensures payments == mockPayments && selectedPaymentIds == []
      ensures !showReversal && !showApproveDialog && !showRejectDialog
    {
      payments := mockPayments;
      showReversal := false;
      selectedPaymentIds := [];
      showApproveDialog := false;
      showRejectDialog := false;
    }

    function Selected(): seq<Payment>
      reads this
    {
      SelectedPayments(payments, selectedPaymentIds)
    }

    /** `handleApprove`: the table's Approve button; payments are not touched yet. */
    method HandleApprove(ids: seq<string>)
      modifies this
      ensures selectedPaymentIds == ids && showApproveDialog
      ensures payments == old(payments)
      ensures showRejectDialog == old(showRejectDialog) && showReversal == old(showReversal)
    {
      selectedPaymentIds := ids;
      showApproveDialog := true;
    }

    /** `confirmApprove`: the listed payments become approved; the list is cleared and the
        dialog closed. */
    method ConfirmApprove()
      modifies this
      ensures payments == WithStatus(old(payments), old(selectedPaymentIds), Approved)
      ensures selectedPaymentIds == [] && !showApproveDialog
      ensures showRejectDialog == old(showRejectDialog) && showReversal == old(showReversal)
    {
      payments := WithStatus(payments, selectedPaymentIds, Approved);
      selectedPaymentIds := [];
      showApproveDialog := false;
    }

    /** The approve dialog's Cancel (or Escape): it closes, the ids stay. */
    method CloseApproveDialog()
      modifies this
      ensures !showApproveDialog
      ensures payments == old(payments) && selectedPaymentIds == old(selectedPaymentIds)
      ensures showRejectDialog == old(showRejectDialog) && showReversal == old(showReversal)
    {
      showApproveDialog := false;
    }

    method HandleReject(ids: seq<string>)
      modifies this
      ensures selectedPaymentIds == ids && showRejectDialog
      ensures payments == old(payments)
      ensures showApproveDialog == old(showApproveDialog) && showReversal == old(showReversal)
    {
      selectedPaymentIds := ids;
      showRejectDialog := true;
    }

    method ConfirmReject()
      modifies this
      ensures payments == WithStatus(old(payments), old(selectedPaymentIds), Rejected)
      ensures selectedPaymentIds == [] && !showRejectDialog
      ensures showApproveDialog == old(showApproveDialog) && showReversal == old(showReversal)
    {
      payments := WithStatus(payments, selectedPaymentIds, Rejected);
      selectedPaymentIds := [];
      showRejectDialog := false;
    }

    method CloseRejectDialog()
      modifies this
      ensures !showRejectDialog
      ensures payments == old(payments) && selectedPaymentIds == old(selectedPaymentIds)
      ensures showApproveDialog == old(showApproveDialog) && showReversal == old(showReversal)
    {
      showRejectDialog := false;
    }

    /** `handleReverseTxns`: the reversal view replaces the table. */
    method HandleReverseTxns(ids: seq<string>)
      modifies this
      ensures selectedPaymentIds == ids && showReversal
      ensures payments == old(payments)
      ensures showApproveDialog == old(showApproveDialog) && showRejectDialog == old(showRejectDialog)
    {
      selectedPaymentIds := ids;
      showReversal := true;
    }

    /** `handleReversePayment`: exactly that one id. */
    method HandleReversePayment(id: string)
      modifies this
      ensures selectedPaymentIds == [id] && showReversal
      ensures payments == old(payments)
      ensures showApproveDialog == old(showApproveDialog) && showRejectDialog == old(showRejectDialog)
    {
      selectedPaymentIds := [id];
      showReversal := true;
    }

    /** `handleSubmitReversal`: the listed payments become reversed and the table comes back. */
    method HandleSubmitReversal()
      modifies this
      ensures payments == WithStatus(old(payments), old(selectedPaymentIds), Reversed)
      ensures selectedPaymentIds == [] && !showReversal
      ensures showApproveDialog == old(showApproveDialog) && showRejectDialog == old(showRejectDialog)
    {
      payments := WithStatus(payments, selectedPaymentIds, Reversed);
      showReversal := false;
      selectedPaymentIds := [];
    }

    /** The reversal view's Cancel only hides it. */
    method CancelReversal()
      modifies this
      ensures !showReversal
      ensures payments == old(payments) && selectedPaymentIds == old(selectedPaymentIds)
      ensures showApproveDialog == old(showApproveDialog) && showRejectDialog == old(showRejectDialog)
    {
      showReversal := false;
    }
  }
}
