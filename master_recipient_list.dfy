/** The master recipient list page (src/pages/MasterRecipientList.tsx): a plain substring name
    search, a case-insensitive status search over an optional status, the create-recipient
    modal flag, and create and delete handlers that keep both lists in step. */
module MasterRecipientList {
  import opened Wrappers
  import opened Seqs
  import opened Text
  import opened RecipientModel

  datatype SearchFilters = SearchFilters(recipientName: string, status: string)

  const AllStatus: string := "All Status"

  /** `recipient.name.toLowerCase().includes(searchTerm)`, skipped for an empty name filter;
      `*` has no special meaning here. */
  predicate NameMatches(r: Recipient, recipientName: string)
  {
    recipientName == "" || Contains(Lower(r.name), Lower(recipientName))
  }

  /** `recipient.status?.toLowerCase() === filters.status.toLowerCase()`, skipped when the filter
      is empty or "All Status"; a recipient without a status never equals a string. */
  predicate StatusMatches(r: Recipient, status: string)
  {
    status == "" || status == AllStatus ||
    (r.status.Some? && Lower(r.status.value) == Lower(status))
  }

  predicate RecipientMatches(r: Recipient, f: SearchFilters)
  {
    NameMatches(r, f.recipientName) && StatusMatches(r, f.status)
  }

  function NameStage(f: SearchFilters): Recipient -> bool
  {
    (r: Recipient) => Contains(Lower(r.name), Lower(f.recipientName))
  }

  function StatusStage(f: SearchFilters): Recipient -> bool
  {
    (r: Recipient) => r.status.Some? && Lower(r.status.value) == Lower(f.status)
  }

  function NameOnly(f: SearchFilters): Recipient -> bool
  {
    (r: Recipient) => NameMatches(r, f.recipientName)
  }

  function Matches(f: SearchFilters): Recipient -> bool
  {
    (r: Recipient) => RecipientMatches(r, f)
  }

  function Search(recipients: seq<Recipient>, f: SearchFilters): seq<Recipient>
  {
    Filter(recipients, Matches(f))
  }

  function IdDiffers(id: string): Recipient -> bool
  {
    (r: Recipient) => r.id != id
  }

  lemma SearchIsSubsequence(recipients: seq<Recipient>, f: SearchFilters)
    ensures IsSubsequence(Search(recipients, f), recipients)
  {
    FilterIsSubsequence(recipients, Matches(f));
  }

  /** A recipient is in the result exactly when it is in the full list, its lowered name
      includes the lowered name filter, and, unless the status filter is off, it has a status
      equal to the filter up to case. */
  lemma SearchMembership(recipients: seq<Recipient>, f: SearchFilters, r: Recipient)
    ensures r in Search(recipients, f) <==>
      r in recipients && Contains(Lower(r.name), Lower(f.recipientName)) &&
      (f.status == "" || f.status == AllStatus || (r.status.Some? && Lower(r.status.value) == Lower(f.status)))
  {
    LowerIsLower(r.name);
    if f.recipientName == "" {
      ContainsEmpty(Lower(r.name));
    }
    if r in recipients && RecipientMatches(r, f) {
      var i :| 0 <= i < |recipients| && recipients[i] == r;
      assert Matches(f)(recipients[i]);
    }
  }

  /** A recipient without a status is filtered out by every active status filter. */
  lemma MissingStatusNeverMatches(recipients: seq<Recipient>, f: SearchFilters, r: Recipient)
    requires f.status != "" && f.status != AllStatus && r.status.None?
    ensures r !in Search(recipients, f)
  {
  }

  /** `*` is an ordinary character: the filter "a*" only finds names containing "a*". */
  lemma StarIsLiteral(r: Recipient)
    requires '*' !in r.name
    ensures !NameMatches(r, "a*")
  {
    assert Lower("a*") == "a*";
    ContainsIff(Lower(r.name), "a*");
    forall i | OccursAt(Lower(r.name), "a*", i) ensures Lower(r.name)[i + 1] == '*' {
      assert Lower(r.name)[i..i + 2][1] == Lower(r.name)[i + 1];
    }
  }

  /** Creating while a search is active appends even a recipient that does not match, so the
      shown list is then no longer the search result of the full list. */
  lemma CreateIgnoresActiveSearch(recipients: seq<Recipient>, f: SearchFilters, r: Recipient)
    requires !RecipientMatches(r, f)
    ensures Search(recipients, f) + [r] != Search(recipients + [r], f)
  {
    FilterAppend(recipients, [r], Matches(f));
    assert Filter([r], Matches(f)) == [];
    var shown := Search(recipients, f) + [r];
    assert shown[|shown| - 1] == r;
  }

  lemma DeleteKeepsSearchInStep(recipients: seq<Recipient>, f: SearchFilters, id: string)
    ensures Filter(Search(recipients, f), IdDiffers(id)) == Search(Filter(recipients, IdDiffers(id)), f)
  {
    FilterCommute(recipients, Matches(f), IdDiffers(id));
  }

  lemma DeleteRemovesExactlyThatId(s: seq<Recipient>, id: string, r: Recipient)
    ensures r in Filter(s, IdDiffers(id)) <==> r in s && r.id != id
    ensures IsSubsequence(Filter(s, IdDiffers(id)), s)
  {
    FilterIsSubsequence(s, IdDiffers(id));
    if r in s && r.id != id {
      var i :| 0 <= i < |s| && s[i] == r;
      assert IdDiffers(id)(s[i]);
    }
  }

  class MasterRecipientListPage {
    var recipients: seq<Recipient>
    var filteredRecipients: seq<Recipient>
    var isCreateModalOpen: bool

    ghost predicate Valid()
      reads this
    {
      IsSubsequence(filteredRecipients, recipients)
    }

    constructor (mockRecipients: seq<Recipient>)
      ensures recipients == mockRecipients && filteredRecipients == mockRecipients
      ensures !isCreateModalOpen
      ensures Valid()
    {
      recipients := mockRecipients;
      filteredRecipients := mockRecipients;
      isCreateModalOpen := false;
      new;
      SubsequenceRefl(recipients);
    }

    method HandleSearch(filters: SearchFilters)
      modifies this
      ensures recipients == old(recipients) && isCreateModalOpen == old(isCreateModalOpen)
      ensures filteredRecipients == Search(recipients, filters)
      ensures Valid()
    {
      var filtered := recipients;
      if filters.recipientName != "" {
        FilterExt(recipients, NameStage(filters), NameOnly(filters));
        filtered := Filter(filtered, NameStage(filters));
      } else {
        FilterAll(recipients, NameOnly(filters));
      }
      assert filtered == Filter(recipients, NameOnly(filters));
      if filters.status != "" && filters.status != AllStatus {
        FilterFilter(recipients, NameOnly(filters), StatusStage(filters), Matches(filters));
        filtered := Filter(filtered, StatusStage(filters));
      } else {
        FilterExt(recipients, NameOnly(filters), Matches(filters));
      }
      filteredRecipients := filtered;
      SearchIsSubsequence(recipients, filters);
    }

    /** `handleCreateRecipient`: the page header's create button opens the modal. */
    method HandleCreateRecipient()
      modifies this
      ensures isCreateModalOpen
      ensures recipients == old(recipients) && filteredRecipients == old(filteredRecipients)
    {
      isCreateModalOpen := true;
    }

    /** The modal's `onClose`. */
    method CloseCreateModal()
      modifies this
      ensures !isCreateModalOpen
      ensures recipients == old(recipients) && filteredRecipients == old(filteredRecipients)
    {
      isCreateModalOpen := false;
    }

    /** `handleRecipientCreated`: appended to both lists whatever the current filter, and the
        modal closes. */
    method HandleRecipientCreated(newRecipient: Recipient)
      requires Valid()
      modifies this
      ensures recipients == old(recipients) + [newRecipient]
      ensures filteredRecipients == old(filteredRecipients) + [newRecipient]
      ensures !isCreateModalOpen
      ensures Valid()
    {
      AppendKeepsSubsequence(filteredRecipients, recipients, newRecipient);
      recipients := recipients + [newRecipient];
      filteredRecipients := filteredRecipients + [newRecipient];
      isCreateModalOpen := false;
    }

    method HandleDeleteRecipient(recipientId: string)
      requires Valid()
      modifies this
      ensures recipients == Filter(old(recipients), IdDiffers(recipientId))
      ensures filteredRecipients == Filter(old(filteredRecipients), IdDiffers(recipientId))
      ensures isCreateModalOpen == old(isCreateModalOpen)
      ensures Valid()
    {
      FilterKeepsSubsequence(filteredRecipients, recipients, IdDiffers(recipientId));
      recipients := Filter(recipients, IdDiffers(recipientId));
      filteredRecipients := Filter(filteredRecipients, IdDiffers(recipientId));
    }
  }
}
