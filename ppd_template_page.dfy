/** The PPD template page (src/pages/PPDTemplate.tsx): the template being edited, the form's
    required-field rule, and the recipient picker dialog with its search box and its
    toggle-by-id selection. */
module PpdTemplatePage {
  import opened Wrappers
  import opened Seqs
  import opened Text
  import opened Selection
  import opened RecipientModel

  /** The page's `Partial<PPDTemplate>` state: no id until the template is stored. */
  datatype TemplateState = TemplateState(
    id: Option<string>,
    activationDate: string,
    name: string,
    originatingAccount: string,
    originatingAchCompanyId: string,
    companyEntryDescription: string,
    companyDiscretionaryData: Option<string>,
    templateLimit: Option<int>,
    recipients: seq<Recipient>)

  /** The values the form submits. */
  datatype FormValues = FormValues(
    activationDate: string,
    name: string,
    originatingAccount: string,
    originatingAchCompanyId: string,
    companyEntryDescription: string,
    companyDiscretionaryData: Option<string>,
    templateLimit: Option<int>)

  /** The draft object built by Save Incomplete: the template with a status. */
  datatype DraftTemplate = DraftTemplate(template: TemplateState, status: string)

  /** The initial template: today's date and empty fields. */
  function InitialTemplate(today: string): TemplateState
  {
    TemplateState(None, today, "", "", "", "", Some(""), None, [])
  }

  /** The schema: five strings of length at least 1; the discretionary data and the limit
      are optional. */
  predicate FormValid(v: FormValues)
  {
    v.activationDate != "" && v.name != "" && v.originatingAccount != "" &&
    v.originatingAchCompanyId != "" && v.companyEntryDescription != ""
  }

  /** The schema's messages for the fields that fail, in field order. */
  function MissingFields(v: FormValues): (errors: seq<string>)
    ensures errors == [] <==> FormValid(v)
    ensures |errors| <= 5
  {
    (if v.activationDate == "" then ["Template activation date is required"] else []) +
    (if v.name == "" then ["Template name is required"] else []) +
    (if v.originatingAccount == "" then ["Originating account is required"] else []) +
    (if v.originatingAchCompanyId == "" then ["Originating ACH Company ID is required"] else []) +
    (if v.companyEntryDescription == "" then ["Company entry description is required"] else [])
  }

  /** `{...ppdTemplate, ...values}`: every submitted field overwrites the template's; the id
      and the recipients are not form fields and stay. */
  function Merge(t: TemplateState, v: FormValues): TemplateState
  {
    t.(activationDate := v.activationDate, name := v.name, originatingAccount := v.originatingAccount,
       originatingAchCompanyId := v.originatingAchCompanyId,
       companyEntryDescription := v.companyEntryDescription,
       companyDiscretionaryData := v.companyDiscretionaryData, templateLimit := v.templateLimit)
  }

  /** The form fields of a template. */
  function ValuesOf(t: TemplateState): FormValues
  {
    FormValues(t.activationDate, t.name, t.originatingAccount, t.originatingAchCompanyId,
               t.companyEntryDescription, t.companyDiscretionaryData, t.templateLimit)
  }

  /** After a merge the template's form fields are the submitted values, and the fields
      outside the form are the template's own. */
  lemma MergeTakesValues(t: TemplateState, v: FormValues)
    ensures ValuesOf(Merge(t, v)) == v
    ensures Merge(t, v).id == t.id && Merge(t, v).recipients == t.recipients
  {
  }

  /** The later of two submissions wins completely, and merging a template's own values
      changes nothing. */
  lemma MergeOverwrites(t: TemplateState, v1: FormValues, v2: FormValues)
    ensures Merge(Merge(t, v1), v2) == Merge(t, v2)
    ensures Merge(t, ValuesOf(t)) == t
  {
  }

  /** The search box's test: the lowered query occurs in the lowered name, recipient id or
      account number. */
  predicate QueryMatches(r: Recipient, query: string)
  {
    Contains(Lower(r.name), Lower(query)) ||
    Contains(Lower(r.recipientId), Lower(query)) ||
    Contains(Lower(r.accountNumber), Lower(query))
  }

  function QueryStage(query: string): Recipient -> bool
  {
    (r: Recipient) => QueryMatches(r, query)
  }

  /** `filteredRecipients`, recomputed from the full list on every render. */
  function FilteredRecipients(all: seq<Recipient>, query: string): seq<Recipient>
  {
    Filter(all, QueryStage(query))
  }

  lemma FilteredRecipientsMembership(all: seq<Recipient>, query: string, r: Recipient)
    ensures r in FilteredRecipients(all, query) <==> r in all && QueryMatches(r, query)
    ensures IsSubsequence(FilteredRecipients(all, query), all)
  {
    FilterIsSubsequence(all, QueryStage(query));
    if r in all && QueryMatches(r, query) {
      var i :| 0 <= i < |all| && all[i] == r;
      assert QueryStage(query)(all[i]);
    }
  }

  /** An empty query lists every recipient, in order. */
  lemma EmptyQueryListsAll(all: seq<Recipient>)
    ensures FilteredRecipients(all, "") == all
  {
    assert Lower("") == "";
    forall i | 0 <= i < |all| ensures QueryStage("")(all[i]) {
      ContainsEmpty(Lower(all[i].name));
    }
    FilterAll(all, QueryStage(""));
  }

  /** The query is case-insensitive. */
  lemma QueryIgnoresCase(all: seq<Recipient>, q1: string, q2: string)
    requires Lower(q1) == Lower(q2)
    ensures FilteredRecipients(all, q1) == FilteredRecipients(all, q2)
  {
    FilterExt(all, QueryStage(q1), QueryStage(q2));
  }

  class PpdTemplatePage {
    const mockRecipients: seq<Recipient>
    var isSelectRecipientOpen: bool
    var selectedRecipients: seq<Recipient>
    var searchQuery: string
    var ppdTemplate: TemplateState

    /** The selection never holds two recipients with the same id. */
    ghost predicate Valid()
      reads this
    {
      UniqueKeys(selectedRecipients, RecipientKey)
    }

    /** The date default is today's date, which is passed in. */
    constructor (recipients: seq<Recipient>, today: string)
      ensures mockRecipients == recipients
      ensures !isSelectRecipientOpen && selectedRecipients == [] && searchQuery == ""
      ensures ppdTemplate == InitialTemplate(today)
      ensures Valid()
    {
      mockRecipients := recipients;
      isSelectRecipientOpen := false;
      selectedRecipients := [];
      searchQuery := "";
      ppdTemplate := InitialTemplate(today);
    }

    /** The rows the picker shows. */
    function Shown(): seq<Recipient>
      reads this
    {
      FilteredRecipients(mockRecipients, searchQuery)
    }

    /** The row checkbox: some selected recipient has this id. */
    function IsChecked(r: Recipient): bool
      reads this
    {
      HasKey(selectedRecipients, RecipientKey, r.id)
    }

    /** "Select Recipients" opens the dialog. */
    method OpenSelectRecipients()
      modifies this
      ensures isSelectRecipientOpen
      ensures selectedRecipients == old(selectedRecipients) && searchQuery == old(searchQuery)
      ensures ppdTemplate == old(ppdTemplate)
    {
      isSelectRecipientOpen := true;
    }

    /** Typing in the search box. */
    method SetSearchQuery(query: string)
      modifies this
      ensures searchQuery == query
      ensures isSelectRecipientOpen == old(isSelectRecipientOpen)
      ensures selectedRecipients == old(selectedRecipients) && ppdTemplate == old(ppdTemplate)
    {
      searchQuery := query;
    }

    /** `handleSelectRecipient`: removed by id when selected, appended otherwise. */
    method HandleSelectRecipient(recipient: Recipient)
      requires Valid()
      modifies this
      ensures selectedRecipients == ToggleBy(old(selectedRecipients), recipient, RecipientKey)
      ensures forall id :: HasKey(selectedRecipients, RecipientKey, id) <==>
        (if id == recipient.id then !HasKey(old(selectedRecipients), RecipientKey, id)
         else HasKey(old(selectedRecipients), RecipientKey, id))
      ensures isSelectRecipientOpen == old(isSelectRecipientOpen)
      ensures searchQuery == old(searchQuery) && ppdTemplate == old(ppdTemplate)
      ensures Valid()
    {
      ghost var before := selectedRecipients;
      ToggleKeepsUniqueKeys(selectedRecipients, recipient, RecipientKey);
      if HasKey(selectedRecipients, RecipientKey, recipient.id) {
        selectedRecipients := Filter(selectedRecipients, KeyDiffers(RecipientKey, recipient.id));
      } else {
        selectedRecipients := selectedRecipients + [recipient];
      }
      forall id | true
        ensures HasKey(selectedRecipients, RecipientKey, id) <==>
          (if id == recipient.id then !HasKey(before, RecipientKey, id) else HasKey(before, RecipientKey, id))
      {
        ToggleFlipsOnlyThatKey(before, recipient, RecipientKey, id);
      }
    }

    /** `handleDoneSelectingRecipients`: the selection becomes the template's recipients and
        the dialog closes. */
    method HandleDoneSelectingRecipients()
      modifies this
      ensures ppdTemplate == old(ppdTemplate).(recipients := old(selectedRecipients))
      ensures !isSelectRecipientOpen
      ensures selectedRecipients == old(selectedRecipients) && searchQuery == old(searchQuery)
    {
      ppdTemplate := ppdTemplate.(recipients := selectedRecipients);
      isSelectRecipientOpen := false;
    }

    /** The dialog's Cancel only closes it. */
    method CancelSelectRecipients()
      modifies this
      ensures !isSelectRecipientOpen
      ensures selectedRecipients == old(selectedRecipients) && searchQuery == old(searchQuery)
      ensures ppdTemplate == old(ppdTemplate)
    {
      isSelectRecipientOpen := false;
    }

    /** `handleSubmitPPDForm`, which the form calls only with values that pass the schema. */
    method HandleSubmitPpdForm(values: FormValues)
      requires FormValid(values)
      modifies this
      ensures ppdTemplate == Merge(old(ppdTemplate), values)
      ensures isSelectRecipientOpen == old(isSelectRecipientOpen)
      ensures selectedRecipients == old(selectedRecipients) && searchQuery == old(searchQuery)
    {
      ppdTemplate := Merge(ppdTemplate, values);
    }

    /** `handleSaveIncomplete`: the draft is the template with status "draft" and the current
        selection as recipients; the page's state is not changed. */
    method HandleSaveIncomplete() returns (draft: DraftTemplate)
      ensures draft.status == "draft"
      ensures draft.template.recipients == selectedRecipients
      ensures draft.template.(recipients := ppdTemplate.recipients) == ppdTemplate
    {
      draft := DraftTemplate(ppdTemplate.(recipients := selectedRecipients), "draft");
    }
  }
}
