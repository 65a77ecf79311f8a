/** The payment record of types/payment.ts. Amounts are whole cents. */
module PaymentModel {
  import opened Wrappers
  import opened Status

  datatype PaymentType = Ccd | Ppd | Tax

  function PaymentTypeName(t: PaymentType): string
  {
    match t
    case Ccd => "CCD - Corporate Credit or Debit"
    case Ppd => "PPD - Prearranged Payment and Deposit"
    case Tax => "Tax"
  }

  datatype Payment = Payment(
    id: string,
    paymentNo: string,
    name: string,
    status: StatusType,
    confirmationNo: Option<string>,
    sendDate: string,
    paymentDate: string,
    companyAccount: string,
    companyIdentifier: string,
    paymentType: PaymentType,
    template: string,
    recipient: string,
    amountCents: int,
    currency: Option<string>)

  /** The key used for selection: `payment.id`. */
  function PaymentId(p: Payment): string
  {
    p.id
  }

  /** `payments.map(payment => payment.id)`. */
  function Ids(payments: seq<Payment>): (ids: seq<string>)
    ensures |ids| == |payments|
    ensures forall i :: 0 <= i < |payments| ==> ids[i] == payments[i].id
  {
    if payments == [] then [] else [payments[0].id] + Ids(payments[1..])
  }
}
