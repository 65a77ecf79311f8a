/** The template table (src/components/templates/TemplateList.tsx): its sort state, the
    comparator of its sorted copy. Its footer is the one of ListFooter. */
module TemplateList {
  import opened Seqs
  import opened Text
  import opened Sorting
  import opened MockData

  /** The keys of a template. */
  datatype TemplateField =
    | Id | Name | Description | Status | CompanyAccount | Type | RecipientName | Amount
    | CreatedAt | ModifiedAt | ModifiedBy

  /** A field's value as the comparator sees it: a string or a number. */
  datatype FieldValue = Str(s: string) | Num(n: int)

  function ValueOf(t: Template, f: TemplateField): FieldValue
  {
    match f
    case Id => Str(t.id)
    case Name => Str(t.name)
    case Description => Str(t.description)
    case Status => Str(PaymentStatusName(t.status))
    case CompanyAccount => Str(t.companyAccount)
    case Type => Str(PaymentTypeName(t.paymentType))
    case RecipientName => Str(t.recipient)
    case Amount => Num(t.amountCents)
    case CreatedAt => Str(t.createdAt)
    case ModifiedAt => Str(t.modifiedAt)
    case ModifiedBy => Str(t.modifiedBy)
  }

  /** Two strings by `localeCompare`, two numbers by subtraction, reversed for `desc`; any
      other pair compares equal. */
  function CompareValues(a: FieldValue, b: FieldValue, dir: Direction): int
  {
    match (a, b)
    case (Str(x), Str(y)) => if dir == Asc then LocaleCompare(x, y) else LocaleCompare(y, x)
    case (Num(x), Num(y)) => if dir == Asc then x - y else y - x
    case _ => 0
  }

  function Comparator(field: TemplateField, dir: Direction): (Template, Template) -> int
  {
    (a: Template, b: Template) => CompareValues(ValueOf(a, field), ValueOf(b, field), dir)
  }

  /** `sortedTemplates`: a sorted copy; the list it was given is not changed. */
  function SortedTemplates(templates: seq<Template>, s: SortState<TemplateField>): (r: seq<Template>)
    ensures multiset(r) == multiset(templates)
  {
    SortBy(templates, Comparator(s.field, s.direction))
  }

  /** The initial sort: by name, ascending. */
  function InitialSort(): SortState<TemplateField>
  {
    SortState(Name, Asc)
  }

  /** Swapping two values negates the sign of their comparison. */
  lemma CompareValuesFlips(a: FieldValue, b: FieldValue, dir: Direction)
    ensures CompareValues(a, b, dir) > 0 ==> CompareValues(b, a, dir) < 0
  {
    if a.Str? && b.Str? {
      LocaleCompareProperties(a.s, b.s);
    }
  }

  /** Every field holds the same kind of value in every template, so the comparator is
      transitive. */
  lemma ComparatorTransitive(field: TemplateField, dir: Direction, a: Template, b: Template, c: Template)
    requires Comparator(field, dir)(a, b) <= 0 && Comparator(field, dir)(b, c) <= 0
    ensures Comparator(field, dir)(a, c) <= 0
  {
    var va, vb, vc := ValueOf(a, field), ValueOf(b, field), ValueOf(c, field);
    if va.Str? {
      if dir == Asc {
        LocaleCompareTransitive(va.s, vb.s, vc.s);
      } else {
        LocaleCompareTransitive(vc.s, vb.s, va.s);
      }
    }
  }

  /** The sorted copy is in order: every template compares no greater than every later one. */
  lemma SortedTemplatesInOrder(templates: seq<Template>, s: SortState<TemplateField>)
    ensures Sorted(SortedTemplates(templates, s), Comparator(s.field, s.direction))
  {
    var cmp := Comparator(s.field, s.direction);
    forall a, b ensures cmp(a, b) > 0 ==> cmp(b, a) < 0 {
      CompareValuesFlips(ValueOf(a, s.field), ValueOf(b, s.field), s.direction);
    }
    SortByAdjacentSorted(templates, cmp);
    var r := SortedTemplates(templates, s);
    forall a, b, c | a in r && b in r && c in r && cmp(a, b) <= 0 && cmp(b, c) <= 0
      ensures cmp(a, c) <= 0
    {
      ComparatorTransitive(s.field, s.direction, a, b, c);
    }
    AdjacentSortedIsSorted(r, cmp);
  }

  /** Sorting by amount orders the amounts: ascending, or descending for `desc`. */
  lemma SortedByAmount(templates: seq<Template>, dir: Direction)
    ensures var r := SortedTemplates(templates, SortState(Amount, dir));
      forall i, j :: 0 <= i < j < |r| ==>
        if dir == Asc then r[i].amountCents <= r[j].amountCents else r[i].amountCents >= r[j].amountCents
  {
    var r := SortedTemplates(templates, SortState(Amount, dir));
    SortedTemplatesInOrder(templates, SortState(Amount, dir));
    forall i, j | 0 <= i < j < |r|
      ensures if dir == Asc then r[i].amountCents <= r[j].amountCents else r[i].amountCents >= r[j].amountCents
    {
      assert Comparator(Amount, dir)(r[i], r[j]) <= 0;
    }
  }

  /** Sorting by name orders the names by the string comparison, reversed for `desc`. */
  lemma SortedByName(templates: seq<Template>, dir: Direction)
    ensures var r := SortedTemplates(templates, SortState(Name, dir));
      forall i, j :: 0 <= i < j < |r| ==>
        if dir == Asc then LocaleCompare(r[i].name, r[j].name) <= 0 else LocaleCompare(r[j].name, r[i].name) <= 0
  {
    var r := SortedTemplates(templates, SortState(Name, dir));
    SortedTemplatesInOrder(templates, SortState(Name, dir));
    forall i, j | 0 <= i < j < |r|
      ensures if dir == Asc then LocaleCompare(r[i].name, r[j].name) <= 0 else LocaleCompare(r[j].name, r[i].name) <= 0
    {
      assert Comparator(Name, dir)(r[i], r[j]) <= 0;
    }
  }

  function HasValue(field: TemplateField, v: FieldValue): Template -> bool
  {
    (t: Template) => ValueOf(t, field) == v
  }

  /** Templates with the same value in the sort field keep their input order. */
  lemma SortedTemplatesStable(templates: seq<Template>, s: SortState<TemplateField>, v: FieldValue)
    ensures Filter(SortedTemplates(templates, s), HasValue(s.field, v)) == Filter(templates, HasValue(s.field, v))
  {
    var cmp := Comparator(s.field, s.direction);
    forall a, b | HasValue(s.field, v)(a) && HasValue(s.field, v)(b) ensures cmp(a, b) == 0 {
      if v.Str? {
        LocaleCompareProperties(v.s, v.s);
      }
    }
    SortByStable(templates, cmp, HasValue(s.field, v));
  }

  /** The table's local sort state; the templates are a prop. */
  class TemplateListTable {
    var sortField: TemplateField
    var sortDirection: Direction

    constructor ()
      ensures SortState(sortField, sortDirection) == InitialSort()
    {
      sortField := Name;
      sortDirection := Asc;
    }

    /** `handleSort`, on a click on a sortable column header. */
    method HandleSort(field: TemplateField)
      modifies this
      ensures SortState(sortField, sortDirection) == NextSort(SortState(old(sortField), old(sortDirection)), field)
    {
      if field == sortField {
        sortDirection := if sortDirection == Asc then Desc else Asc;
      } else {
        sortField := field;
        sortDirection := Asc;
      }
    }

    /** The rows in display order. */
    function Rows(templates: seq<Template>): seq<Template>
      reads this
    {
      SortedTemplates(templates, SortState(sortField, sortDirection))
    }
  }
}
