/** The recipients page (src/pages/Recipients.tsx): the full recipient list of the mock data,
    the list the search last produced, the wildcard/status search and the delete handler. */
module Recipients {
  import opened Seqs
  import opened Text
  import opened WildcardSearch
  import opened MockData

  datatype SearchFilters = SearchFilters(recipientName: string, status: string)

  /** The status option that switches the status filter off. */
  const AllStatus: string := "All Status"

  function DefaultFilters(): SearchFilters
  {
    SearchFilters("", AllStatus)
  }

  predicate StatusMatches(r: Recipient, status: string)
  {
    status == AllStatus || PaymentStatusName(r.status) == Lower(status)
  }

  predicate RecipientMatches(r: Recipient, f: SearchFilters)
  {
    NameMatches(r.name, f.recipientName) && StatusMatches(r, f.status)
  }

  function NameStage(f: SearchFilters): Recipient -> bool
  {
    (r: Recipient) => NameMatches(r.name, f.recipientName)
  }

  function StatusStage(f: SearchFilters): Recipient -> bool
  {
    (r: Recipient) => PaymentStatusName(r.status) == Lower(f.status)
  }

  function Matches(f: SearchFilters): Recipient -> bool
  {
    (r: Recipient) => RecipientMatches(r, f)
  }

  /** The search result as one filter pass over the full list. */
  function Search(recipients: seq<Recipient>, f: SearchFilters): seq<Recipient>
  {
    Filter(recipients, Matches(f))
  }

  function IdDiffers(id: string): Recipient -> bool
  {
    (r: Recipient) => r.id != id
  }

  lemma SearchIsSubsequence(recipients: seq<Recipient>, f: SearchFilters)
    ensures IsSubsequence(Search(recipients, f), recipients)
  {
    FilterIsSubsequence(recipients, Matches(f));
  }

  /** A recipient is in the result exactly when it is in the full list, its name matches and,
      unless the filter is off, its status is the lowered filter value. */
  lemma SearchMembership(recipients: seq<Recipient>, f: SearchFilters, r: Recipient)
    ensures r in Search(recipients, f) <==>
      r in recipients && NameMatches(r.name, f.recipientName) &&
      (f.status == AllStatus || PaymentStatusName(r.status) == Lower(f.status))
  {
    if r in recipients && RecipientMatches(r, f) {
      var i :| 0 <= i < |recipients| && recipients[i] == r;
      assert Matches(f)(recipients[i]);
    }
  }

  lemma DefaultFiltersKeepAll(recipients: seq<Recipient>)
    ensures Search(recipients, DefaultFilters()) == recipients
  {
    FilterAll(recipients, Matches(DefaultFilters()));
  }

  /** The filter value is lowered before the comparison, so values differing only in case
      give the same result. */
  lemma StatusFilterIgnoresCase(recipients: seq<Recipient>, name: string, s1: string, s2: string)
    requires s1 != AllStatus && s2 != AllStatus && Lower(s1) == Lower(s2)
    ensures Search(recipients, SearchFilters(name, s1)) == Search(recipients, SearchFilters(name, s2))
  {
    FilterExt(recipients, Matches(SearchFilters(name, s1)), Matches(SearchFilters(name, s2)));
  }

  lemma DeleteKeepsSearchInStep(recipients: seq<Recipient>, f: SearchFilters, id: string)
    ensures Filter(Search(recipients, f), IdDiffers(id)) == Search(Filter(recipients, IdDiffers(id)), f)
  {
    FilterCommute(recipients, Matches(f), IdDiffers(id));
  }

  lemma DeleteRemovesExactlyThatId(s: seq<Recipient>, id: string, r: Recipient)
    ensures r in Filter(s, IdDiffers(id)) <==> r in s && r.id != id
    ensures IsSubsequence(Filter(s, IdDiffers(id)), s)
  {
    FilterIsSubsequence(s, IdDiffers(id));
    if r in s && r.id != id {
      var i :| 0 <= i < |s| && s[i] == r;
      assert IdDiffers(id)(s[i]);
    }
  }

  class RecipientsPage {
    var recipients: seq<Recipient>
    var filteredRecipients: seq<Recipient>

    ghost predicate Valid()
      reads this
    {
      IsSubsequence(filteredRecipients, recipients)
    }

    /** Both lists start as the given mock recipients. */
    constructor (mockRecipients: seq<Recipient>)
      ensures recipients == mockRecipients && filteredRecipients == mockRecipients
      ensures Valid()
    {
      recipients := mockRecipients;
      filteredRecipients := mockRecipients;
      new;
      SubsequenceRefl(recipients);
    }

    /** `handleSearch`: a name stage and a status stage over a copy of the full list. */
    method HandleSearch(filters: SearchFilters)
      modifies this
      ensures recipients == old(recipients)
      ensures filteredRecipients == Search(recipients, filters)
      ensures Valid()
    {
      var filtered := recipients;
      if filters.recipientName != "" {
        filtered := Filter(filtered, NameStage(filters));
      } else {
        FilterAll(recipients, NameStage(filters));
      }
      assert filtered == Filter(recipients, NameStage(filters));
      if filters.status != AllStatus {
        FilterFilter(recipients, NameStage(filters), StatusStage(filters), Matches(filters));
        filtered := Filter(filtered, StatusStage(filters));
      } else {
        FilterExt(recipients, NameStage(filters), Matches(filters));
      }
      filteredRecipients := filtered;
      SearchIsSubsequence(recipients, filters);
    }

    /** `handleDeleteRecipient`: the id leaves both lists. */
    method HandleDeleteRecipient(recipientId: string)
      requires Valid()
      modifies this
      ensures recipients == Filter(old(recipients), IdDiffers(recipientId))
      ensures filteredRecipients == Filter(old(filteredRecipients), IdDiffers(recipientId))
      ensures Valid()
    {
      FilterKeepsSubsequence(filteredRecipients, recipients, IdDiffers(recipientId));
      recipients := Filter(recipients, IdDiffers(recipientId));
      filteredRecipients := Filter(filteredRecipients, IdDiffers(recipientId));
    }
  }
}
