/** The record types of utils/mockData.ts, which the template and recipient pages list, and
    the template fixture the template page starts from. Amounts are whole cents. */
module MockData {
  import opened Wrappers

  datatype PaymentType = Ppd | Ccd
  datatype PaymentStatus = Approved | Pending | Rejected | Incomplete | Draft | Complete
  datatype AccountType = Checking | Savings
  datatype Frequency = OneTime | Weekly | BiWeekly | Monthly | Quarterly | Annually

  function PaymentTypeName(t: PaymentType): string
  {
    match t
    case Ppd => "PPD"
    case Ccd => "CCD"
  }

  function PaymentStatusName(s: PaymentStatus): string
  {
    match s
    case Approved => "approved"
    case Pending => "pending"
    case Rejected => "rejected"
    case Incomplete => "incomplete"
    case Draft => "draft"
    case Complete => "complete"
  }

  datatype Template = Template(
    id: string,
    name: string,
    description: string,
    status: PaymentStatus,
    companyAccount: string,
    paymentType: PaymentType,
    recipient: string,
    amountCents: int,
    createdAt: string,
    modifiedAt: string,
    modifiedBy: string)

  datatype Recipient = Recipient(
    id: string,
    name: string,
    status: PaymentStatus,
    accountNumber: string,
    routingNumber: string,
    accountType: AccountType,
    email: string,
    phone: string,
    achEnabled: bool,
    addedAt: string,
    address: Option<string>)

  datatype Payment = Payment(
    id: string,
    templateId: Option<string>,
    recipientId: string,
    amountCents: int,
    paymentType: PaymentType,
    status: PaymentStatus,
    effectiveDate: string,
    frequency: Frequency,
    createdAt: string,
    createdBy: string,
    description: Option<string>)

  /** `mockTemplates`. */
  function MockTemplates(): seq<Template>
  {
    [ Template("temp-001", "ABC DEMO", "DEMO", Incomplete, "******4019", Ppd, "Scott Thompson",
               100000, "2023-01-15", "2023-02-01", "Sanjna C"),
      Template("temp-002", "BD Review Template", "BD Review", Approved, "******0361", Ppd, "Joe Wells",
               250000, "2023-01-10", "2023-01-25", "Sanjna C"),
      Template("temp-003", "Monthly Vendor Payment", "Regular payment to main vendor", Approved,
               "******1234", Ccd, "Acme Supplies", 475050, "2023-02-05", "2023-02-15", "Sanjna C"),
      Template("temp-004", "Office Rent", "Monthly office rent payment", Approved, "******5678", Ppd,
               "Property Management LLC", 320000, "2023-01-20", "2023-02-10", "Sanjna C") ]
  }
}
