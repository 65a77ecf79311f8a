/** The three-step recipient wizard (src/components/recipients/CreateRecipientModal.tsx): a
    step counter, a draft form record that every input writes one field of, the bank-name
    lookup, and Submit, which turns the draft into a Recipient and starts over. */
module CreateRecipientModal {
  import opened Wrappers
  import opened RecipientModel

  /** The form record the wizard starts with and returns to. */
  function DefaultForm(): CreateRecipientFormData
  {
    CreateRecipientFormData(Individual, Ppd, "", "", Checking, "", FromList, "", "", false, None, None, None)
  }

  /** The form's text inputs, which `handleInputChange` writes by their `name`. */
  datatype TextField =
    | Name | RecipientIdField | AccountNumber | BankId | BankName | ContactName | ContactEmail | ContactPhone

  /** A text input's current content; a contact field never typed in is `None`. */
  function TextValue(d: CreateRecipientFormData, f: TextField): Option<string>
  {
    match f
    case Name => Some(d.name)
    case RecipientIdField => Some(d.recipientId)
    case AccountNumber => Some(d.accountNumber)
    case BankId => Some(d.bankId)
    case BankName => Some(d.bankName)
    case ContactName => d.contactName
    case ContactEmail => d.contactEmail
    case ContactPhone => d.contactPhone
  }

  /** `{ ...prev, [name]: value }` for a text input. */
  function WithText(d: CreateRecipientFormData, f: TextField, v: string): (r: CreateRecipientFormData)
    ensures TextValue(r, f) == Some(v)
    ensures forall g :: g != f ==> TextValue(r, g) == TextValue(d, g)
    ensures r.achRecipientType == d.achRecipientType && r.paymentType == d.paymentType
    ensures r.accountType == d.accountType && r.bankSelectionMethod == d.bankSelectionMethod
    ensures r.addContactInfo == d.addContactInfo
  {
    match f
    case Name => d.(name := v)
    case RecipientIdField => d.(recipientId := v)
    case AccountNumber => d.(accountNumber := v)
    case BankId => d.(bankId := v)
    case BankName => d.(bankName := v)
    case ContactName => d.(contactName := Some(v))
    case ContactEmail => d.(contactEmail := Some(v))
    case ContactPhone => d.(contactPhone := Some(v))
  }

  /** Writing the same input twice keeps only the second value. */
  lemma WithTextOverwrites(d: CreateRecipientFormData, f: TextField, v1: string, v2: string)
    ensures WithText(WithText(d, f, v1), f, v2) == WithText(d, f, v2)
  {
  }

  /** The bank list's three routing numbers and their names. */
  const BankNames: map<string, string> := map[
    "221982389" := "(AFCU) ACADEMIC FEDERAL CREDIT UNION",
    "226077862" := "SEIU FEDERAL CREDIT UNION",
    "263078950" := "FIRST NATIONAL BANK"]

  /** `bankNames[value] || 'Unknown Bank'`. */
  function BankNameFor(bankId: string): (name: string)
    ensures bankId in BankNames ==> name == BankNames[bankId]
    ensures bankId !in BankNames ==> name == "Unknown Bank"
    ensures name != ""
  {
    if bankId in BankNames then BankNames[bankId] else "Unknown Bank"
  }

  /** "Unknown Bank" is not the name of a listed bank, so the fallback is recognisable. */
  lemma UnknownBankIsFallback(bankId: string)
    ensures BankNameFor(bankId) == "Unknown Bank" <==> bankId !in BankNames
  {
    if bankId in BankNames {
      assert BankNames["221982389"][0] == '(';
      assert BankNames["226077862"][0] == 'S';
      assert BankNames["263078950"][0] == 'F';
    }
  }

  /** The recipient Submit hands to `onRecipientCreated`; `freshId` stands for `uuidv4()`. */
  function NewRecipient(d: CreateRecipientFormData, freshId: string): Recipient
  {
    Recipient(freshId, d.name, d.recipientId, d.bankId, Some(d.bankName), d.accountNumber,
              d.accountType, None, None, None, Some("Active"), None, None, Some(true))
  }

  /** The new recipient carries the account details typed into the form, under the fresh id,
      is active and ACH-enabled, and has none of the optional payment fields. */
  lemma NewRecipientFromForm(d: CreateRecipientFormData, freshId: string)
    ensures var r := NewRecipient(d, freshId);
      r.id == freshId && Some(r.name) == TextValue(d, Name) &&
      Some(r.recipientId) == TextValue(d, RecipientIdField) && Some(r.bankId) == TextValue(d, BankId) &&
      r.bankName == TextValue(d, BankName) && Some(r.accountNumber) == TextValue(d, AccountNumber) &&
      r.accountType == d.accountType
    ensures var r := NewRecipient(d, freshId);
      r.status == Some("Active") && r.achEnabled == Some(true) &&
      r.amountCents.None? && r.crdr.None? && r.discretionaryData.None? &&
      r.prenoteExpiry.None? && r.addenda.None?
  {
  }

  /** Choosing a bank from the list, then submitting, stores the listed bank's name. */
  lemma ChosenBankReachesRecipient(d: CreateRecipientFormData, bankId: string, freshId: string)
    requires bankId in BankNames
    ensures NewRecipient(WithText(WithText(d, BankId, bankId), BankName, BankNameFor(bankId)), freshId).bankName
      == Some(BankNames[bankId])
  {
  }

  class CreateRecipientWizard {
    var currentStep: int
    var formData: CreateRecipientFormData
    /** The `isOpen` prop, which the parent clears in `onClose`. */
    var open: bool

    /** Next is offered only below step 3 and Back only above step 1. */
    ghost predicate Valid()
      reads this
    {
      1 <= currentStep <= 3
    }

    constructor (isOpen: bool)
      ensures currentStep == 1 && formData == DefaultForm() && open == isOpen
      ensures Valid()
    {
      currentStep := 1;
      formData := DefaultForm();
      open := isOpen;
    }

    /** `handleNext`: one step on; nothing is validated and the form is untouched. */
    method Next()
      requires Valid() && currentStep < 3
      modifies this
      ensures currentStep == old(currentStep) + 1
      ensures formData == old(formData) && open == old(open)
      ensures Valid()
    {
      currentStep := currentStep + 1;
    }

    /** `handleBack`: one step back; the form is untouched. */
    method Back()
      requires Valid() && currentStep > 1
      modifies this
      ensures currentStep == old(currentStep) - 1
      ensures formData == old(formData) && open == old(open)
      ensures Valid()
    {
      currentStep := currentStep - 1;
    }

    /** `handleInputChange` on one of the text inputs. */
    method InputChange(f: TextField, value: string)
      modifies this
      ensures formData == WithText(old(formData), f, value)
      ensures currentStep == old(currentStep) && open == old(open)
    {
      formData := WithText(formData, f, value);
    }

    /** The Individual/Business radio group. */
    method SetAchRecipientType(t: RecipientType)
      modifies this
      ensures formData == old(formData).(achRecipientType := t)
      ensures currentStep == old(currentStep) && open == old(open)
    {
      formData := formData.(achRecipientType := t);
    }

    /** The PPD and CCD checkboxes, which write the payment type as a radio would. */
    method SetPaymentType(t: PaymentType)
      modifies this
      ensures formData == old(formData).(paymentType := t)
      ensures currentStep == old(currentStep) && open == old(open)
    {
      formData := formData.(paymentType := t);
    }

    /** The account type select. */
    method SetAccountType(t: AccountType)
      modifies this
      ensures formData == old(formData).(accountType := t)
      ensures currentStep == old(currentStep) && open == old(open)
    {
      formData := formData.(accountType := t);
    }

    /** The List/Manual radio group. */
    method SetBankSelectionMethod(m: BankSelectionMethod)
      modifies this
      ensures formData == old(formData).(bankSelectionMethod := m)
      ensures currentStep == old(currentStep) && open == old(open)
    {
      formData := formData.(bankSelectionMethod := m);
    }

    /** The "add contact information" checkbox. */
    method SetAddContactInfo(checked: bool)
      modifies this
      ensures formData == old(formData).(addContactInfo := checked)
      ensures currentStep == old(currentStep) && open == old(open)
    {
      formData := formData.(addContactInfo := checked);
    }

    /** Choosing a bank from the list writes the routing number and the looked-up name. */
    method ChooseBank(value: string)
      modifies this
      ensures formData == WithText(WithText(old(formData), BankId, value), BankName, BankNameFor(value))
      ensures currentStep == old(currentStep) && open == old(open)
    {
      formData := WithText(formData, BankId, value);
      formData := WithText(formData, BankName, BankNameFor(value));
    }

    /** `handleSubmit`, offered on step 3: the recipient built from the draft, then a fresh
        form on step 1. Closing the dialog is left to the parent. */
    method Submit(freshId: string) returns (created: Recipient)
      requires Valid() && currentStep == 3
      modifies this
      ensures created == NewRecipient(old(formData), freshId)
      ensures currentStep == 1 && formData == DefaultForm() && open == old(open)
      ensures Valid()
    {
      created := NewRecipient(formData, freshId);
      formData := DefaultForm();
      currentStep := 1;
    }

    /** `handleCancel`, and closing the dialog any other way: closed, a fresh form, step 1. */
    method Cancel()
      modifies this
      ensures !open && currentStep == 1 && formData == DefaultForm()
      ensures Valid()
    {
      open := false;
      currentStep := 1;
      formData := DefaultForm();
    }
  }
}
