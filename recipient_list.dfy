/** The recipient table (src/components/recipients/RecipientList.tsx): its sort state, its
    comparator, which orders only pairs of strings. Its footer is the one of ListFooter. */
module RecipientList {
  import opened Wrappers
  import opened Seqs
  import opened Text
  import opened Sorting
  import opened RecipientModel

  /** The keys of a recipient. */
  datatype RecipientField =
    | Id | Name | RecipientId | BankId | BankName | AccountNumber | AccountType | Amount
    | Crdr | DiscretionaryData | Status | PrenoteExpiry | Addenda | AchEnabled

  function AccountTypeName(t: AccountType): string
  {
    match t
    case Checking => "Checking"
    case Savings => "Savings"
  }

  function CreditDebitName(c: CreditDebit): string
  {
    match c
    case Credit => "Credit"
    case Debit => "Debit"
  }

  /** The field's value when it is a string; `None` when it is missing or not a string. */
  function StringValue(r: Recipient, f: RecipientField): Option<string>
  {
    match f
    case Id => Some(r.id)
    case Name => Some(r.name)
    case RecipientId => Some(r.recipientId)
    case BankId => Some(r.bankId)
    case BankName => r.bankName
    case AccountNumber => Some(r.accountNumber)
    case AccountType => Some(AccountTypeName(r.accountType))
    case Amount => None
    case Crdr => if r.crdr.Some? then Some(CreditDebitName(r.crdr.value)) else None
    case DiscretionaryData => r.discretionaryData
    case Status => r.status
    case PrenoteExpiry => r.prenoteExpiry
    case Addenda => r.addenda
    case AchEnabled => None
  }

  function CompareValues(a: Option<string>, b: Option<string>, dir: Direction): int
  {
    if a.Some? && b.Some? then
      if dir == Asc then LocaleCompare(a.value, b.value) else LocaleCompare(b.value, a.value)
    else 0
  }

  function Comparator(field: RecipientField, dir: Direction): (Recipient, Recipient) -> int
  {
    (a: Recipient, b: Recipient) => CompareValues(StringValue(a, field), StringValue(b, field), dir)
  }

  /** `sortedRecipients`: a sorted copy, a permutation of the list it was given. */
  function SortedRecipients(recipients: seq<Recipient>, s: SortState<RecipientField>): (r: seq<Recipient>)
    ensures multiset(r) == multiset(recipients)
  {
    SortBy(recipients, Comparator(s.field, s.direction))
  }

  function InitialSort(): SortState<RecipientField>
  {
    SortState(Name, Asc)
  }

  lemma ComparatorFlips(field: RecipientField, dir: Direction)
    ensures forall a, b :: Comparator(field, dir)(a, b) > 0 ==> Comparator(field, dir)(b, a) < 0
  {
    forall a, b ensures Comparator(field, dir)(a, b) > 0 ==> Comparator(field, dir)(b, a) < 0 {
      var va, vb := StringValue(a, field), StringValue(b, field);
      if va.Some? && vb.Some? {
        LocaleCompareProperties(va.value, vb.value);
      }
    }
  }

  /** Neighbours of the sorted copy are always in order, whatever values are missing. */
  lemma SortedRecipientsNeighboursInOrder(recipients: seq<Recipient>, s: SortState<RecipientField>)
    ensures AdjacentSorted(SortedRecipients(recipients, s), Comparator(s.field, s.direction))
  {
    ComparatorFlips(s.field, s.direction);
    SortByAdjacentSorted(recipients, Comparator(s.field, s.direction));
  }

  /** On values that are all strings the comparator is transitive. */
  lemma ComparatorTransitive(field: RecipientField, dir: Direction, a: Recipient, b: Recipient, c: Recipient)
    requires StringValue(a, field).Some? && StringValue(b, field).Some? && StringValue(c, field).Some?
    requires Comparator(field, dir)(a, b) <= 0 && Comparator(field, dir)(b, c) <= 0
    ensures Comparator(field, dir)(a, c) <= 0
  {
    var va, vb, vc := StringValue(a, field).value, StringValue(b, field).value, StringValue(c, field).value;
    if dir == Asc {
      LocaleCompareTransitive(va, vb, vc);
    } else {
      LocaleCompareTransitive(vc, vb, va);
    }
  }

  /** When every recipient has a string in the field, the sorted copy is fully ordered. */
  lemma SortedRecipientsInOrder(recipients: seq<Recipient>, s: SortState<RecipientField>)
    requires forall i :: 0 <= i < |recipients| ==> StringValue(recipients[i], s.field).Some?
    ensures Sorted(SortedRecipients(recipients, s), Comparator(s.field, s.direction))
  {
    var cmp := Comparator(s.field, s.direction);
    var r := SortedRecipients(recipients, s);
    SortedRecipientsNeighboursInOrder(recipients, s);
    forall x | x in r ensures StringValue(x, s.field).Some? {
      assert x in multiset(recipients);
    }
    forall a, b, c | a in r && b in r && c in r && cmp(a, b) <= 0 && cmp(b, c) <= 0
      ensures cmp(a, c) <= 0
    {
      ComparatorTransitive(s.field, s.direction, a, b, c);
    }
    AdjacentSortedIsSorted(r, cmp);
  }

  /** Names are always present: sorting by name orders the names by the string comparison,
      reversed for `desc`. */
  lemma SortedByName(recipients: seq<Recipient>, dir: Direction)
    ensures var r := SortedRecipients(recipients, SortState(Name, dir));
      forall i, j :: 0 <= i < j < |r| ==>
        if dir == Asc then LocaleCompare(r[i].name, r[j].name) <= 0 else LocaleCompare(r[j].name, r[i].name) <= 0
  {
    var r := SortedRecipients(recipients, SortState(Name, dir));
    SortedRecipientsInOrder(recipients, SortState(Name, dir));
    forall i, j | 0 <= i < j < |r|
      ensures if dir == Asc then LocaleCompare(r[i].name, r[j].name) <= 0 else LocaleCompare(r[j].name, r[i].name) <= 0
    {
      assert Comparator(Name, dir)(r[i], r[j]) <= 0;
    }
  }

  /** When no recipient has a string in the field (a number, a boolean, or a missing optional
      value), every pair compares 0 and the rows keep their input order. */
  lemma MissingValuesKeepOrder(recipients: seq<Recipient>, s: SortState<RecipientField>)
    requires forall i :: 0 <= i < |recipients| ==> StringValue(recipients[i], s.field).None?
    ensures SortedRecipients(recipients, s) == recipients
  {
    SortByAllEqual(recipients, Comparator(s.field, s.direction));
  }

  function HasValue(field: RecipientField, v: Option<string>): Recipient -> bool
  {
    (r: Recipient) => StringValue(r, field) == v
  }

  /** Recipients with the same value in the sort field, or all missing it, keep their input
      order. */
  lemma SortedRecipientsStable(recipients: seq<Recipient>, s: SortState<RecipientField>, v: Option<string>)
    ensures Filter(SortedRecipients(recipients, s), HasValue(s.field, v)) == Filter(recipients, HasValue(s.field, v))
  {
    var cmp := Comparator(s.field, s.direction);
    forall a, b | HasValue(s.field, v)(a) && HasValue(s.field, v)(b) ensures cmp(a, b) == 0 {
      if v.Some? {
        LocaleCompareProperties(v.value, v.value);
      }
    }
    SortByStable(recipients, cmp, HasValue(s.field, v));
  }

  class RecipientListTable {
    var sortField: RecipientField
    var sortDirection: Direction

    constructor ()
      ensures SortState(sortField, sortDirection) == InitialSort()
    {
      sortField := Name;
      sortDirection := Asc;
    }

    method HandleSort(field: RecipientField)
      modifies this
      ensures SortState(sortField, sortDirection) == NextSort(SortState(old(sortField), old(sortDirection)), field)
    {
      if field == sortField {
        sortDirection := if sortDirection == Asc then Desc else Asc;
      } else {
        sortField := field;
        sortDirection := Asc;
      }
    }

    function Rows(recipients: seq<Recipient>): seq<Recipient>
      reads this
    {
      SortedRecipients(recipients, SortState(sortField, sortDirection))
    }
  }
}
