/** The recipient record and the recipient-creation form of types/recipient.ts. */
module RecipientModel {
  import opened Wrappers

  datatype AccountType = Checking | Savings
  datatype CreditDebit = Credit | Debit
  datatype RecipientType = Individual | Business
  datatype PaymentType = Ppd | Ccd
  datatype BankSelectionMethod = FromList | Manual

  datatype Recipient = Recipient(
    id: string,
    name: string,
    recipientId: string,
    bankId: string,
    bankName: Option<string>,
    accountNumber: string,
    accountType: AccountType,
    amountCents: Option<int>,
    crdr: Option<CreditDebit>,
    discretionaryData: Option<string>,
    status: Option<string>,
    prenoteExpiry: Option<string>,
    addenda: Option<string>,
    achEnabled: Option<bool>)

  /** `recipientType` is always the literal 'ACH Domestic', so it carries no field here. */
  datatype CreateRecipientFormData = CreateRecipientFormData(
    // Step 1
    achRecipientType: RecipientType,
    paymentType: PaymentType,
    // Step 2
    name: string,
    recipientId: string,
    accountType: AccountType,
    accountNumber: string,
    bankSelectionMethod: BankSelectionMethod,
    bankId: string,
    bankName: string,
    // Step 3
    addContactInfo: bool,
    contactName: Option<string>,
    contactEmail: Option<string>,
    contactPhone: Option<string>)

  /** The key used for selection: `recipient.id`. */
  function RecipientKey(r: Recipient): string
  {
    r.id
  }
}
