/** The template center page (src/pages/Templates.tsx): the full template list, the list the
    search last produced, the search handler and the delete handler. */
module Templates {
  import opened Seqs
  import opened Text
  import opened WildcardSearch
  import opened MockData

  /** The filter values the search form submits. */
  datatype SearchFilters = SearchFilters(templateName: string, paymentType: string, status: string)

  /** The select options that switch the type and status filters off. */
  const AllPaymentTypes: string := "All Payment Types"
  const AllStatuses: string := "All Statuses"

  /** The form's initial values. */
  function DefaultFilters(): SearchFilters
  {
    SearchFilters("", AllPaymentTypes, AllStatuses)
  }

  predicate TypeMatches(t: Template, paymentType: string)
  {
    paymentType == AllPaymentTypes || PaymentTypeName(t.paymentType) == paymentType
  }

  predicate StatusMatches(t: Template, status: string)
  {
    status == AllStatuses || PaymentStatusName(t.status) == Lower(status)
  }

  /** All three filters at once. */
  predicate TemplateMatches(t: Template, f: SearchFilters)
  {
    NameMatches(t.name, f.templateName) && TypeMatches(t, f.paymentType) && StatusMatches(t, f.status)
  }

  // The filter callbacks of the handler, one per stage.
  function NameStage(f: SearchFilters): Template -> bool
  {
    (t: Template) => NameMatches(t.name, f.templateName)
  }

  function TypeStage(f: SearchFilters): Template -> bool
  {
    (t: Template) => PaymentTypeName(t.paymentType) == f.paymentType
  }

  function StatusStage(f: SearchFilters): Template -> bool
  {
    (t: Template) => PaymentStatusName(t.status) == Lower(f.status)
  }

  function NameAndType(f: SearchFilters): Template -> bool
  {
    (t: Template) => NameMatches(t.name, f.templateName) && TypeMatches(t, f.paymentType)
  }

  function Matches(f: SearchFilters): Template -> bool
  {
    (t: Template) => TemplateMatches(t, f)
  }

  /** The search result as one filter pass over the full list. */
  function Search(templates: seq<Template>, f: SearchFilters): seq<Template>
  {
    Filter(templates, Matches(f))
  }

  /** The delete callback `template => template.id !== templateId`. */
  function IdDiffers(id: string): Template -> bool
  {
    (t: Template) => t.id != id
  }

  /** The result keeps the full list's order and holds only entries of it. */
  lemma SearchIsSubsequence(templates: seq<Template>, f: SearchFilters)
    ensures IsSubsequence(Search(templates, f), templates)
  {
    FilterIsSubsequence(templates, Matches(f));
  }

  /** A template is in the result exactly when it is in the full list and meets every filter. */
  lemma SearchMembership(templates: seq<Template>, f: SearchFilters, t: Template)
    ensures t in Search(templates, f) <==> t in templates && TemplateMatches(t, f)
  {
    if t in templates && TemplateMatches(t, f) {
      var i :| 0 <= i < |templates| && templates[i] == t;
      assert Matches(f)(templates[i]);
    }
  }

  /** The form's initial values filter nothing out. */
  lemma DefaultFiltersKeepAll(templates: seq<Template>)
    ensures Search(templates, DefaultFilters()) == templates
  {
    FilterAll(templates, Matches(DefaultFilters()));
  }

  /** With the type and status filters switched off, the result is the name search alone. */
  lemma SentinelsSwitchOff(templates: seq<Template>, name: string)
    ensures Search(templates, SearchFilters(name, AllPaymentTypes, AllStatuses)) ==
      Filter(templates, NameStage(SearchFilters(name, AllPaymentTypes, AllStatuses)))
  {
    var f := SearchFilters(name, AllPaymentTypes, AllStatuses);
    FilterExt(templates, Matches(f), NameStage(f));
  }

  /** Deleting from the result of a search gives the result of the same search over the list
      after the delete, so the two lists stay in step. */
  lemma DeleteKeepsSearchInStep(templates: seq<Template>, f: SearchFilters, id: string)
    ensures Filter(Search(templates, f), IdDiffers(id)) == Search(Filter(templates, IdDiffers(id)), f)
  {
    FilterCommute(templates, Matches(f), IdDiffers(id));
  }

  /** Delete removes exactly the entries with that id; the others keep their order. */
  lemma DeleteRemovesExactlyThatId(s: seq<Template>, id: string, t: Template)
    ensures t in Filter(s, IdDiffers(id)) <==> t in s && t.id != id
    ensures IsSubsequence(Filter(s, IdDiffers(id)), s)
  {
    FilterIsSubsequence(s, IdDiffers(id));
    if t in s && t.id != id {
      var i :| 0 <= i < |s| && s[i] == t;
      assert IdDiffers(id)(s[i]);
    }
  }

  class TemplatesPage {
    var templates: seq<Template>
    var filteredTemplates: seq<Template>

    /** The shown list is always an order-preserving part of the full list. */
    ghost predicate Valid()
      reads this
    {
      IsSubsequence(filteredTemplates, templates)
    }

    /** Both lists start as the mock templates. */
    constructor ()
      ensures templates == MockTemplates() && filteredTemplates == MockTemplates()
      ensures Valid()
    {
      templates := MockTemplates();
      filteredTemplates := MockTemplates();
      new;
      SubsequenceRefl(templates);
    }

    /** `handleSearch`: three filter stages over a copy of the full list, each skipped when its
        filter is off. The result depends on the full list and the filters only, never on the
        previous result. */
    method HandleSearch(filters: SearchFilters)
      modifies this
      ensures templates == old(templates)
      ensures filteredTemplates == Search(templates, filters)
      ensures Valid()
    {
      var filtered := templates;
      if filters.templateName != "" {
        filtered := Filter(filtered, NameStage(filters));
      } else {
        FilterAll(templates, NameStage(filters));
      }
      assert filtered == Filter(templates, NameStage(filters));
      if filters.paymentType != AllPaymentTypes {
        FilterFilter(templates, NameStage(filters), TypeStage(filters), NameAndType(filters));
        filtered := Filter(filtered, TypeStage(filters));
      } else {
        FilterExt(templates, NameStage(filters), NameAndType(filters));
      }
      assert filtered == Filter(templates, NameAndType(filters));
      if filters.status != AllStatuses {
        FilterFilter(templates, NameAndType(filters), StatusStage(filters), Matches(filters));
        filtered := Filter(filtered, StatusStage(filters));
      } else {
        FilterExt(templates, NameAndType(filters), Matches(filters));
      }
      filteredTemplates := filtered;
      SearchIsSubsequence(templates, filters);
    }

    /** `handleDeleteTemplate`: the id leaves both lists. */
    method HandleDeleteTemplate(templateId: string)
      requires Valid()
      modifies this
      ensures templates == Filter(old(templates), IdDiffers(templateId))
      ensures filteredTemplates == Filter(old(filteredTemplates), IdDiffers(templateId))
      ensures Valid()
    {
      FilterKeepsSubsequence(filteredTemplates, templates, IdDiffers(templateId));
      templates := Filter(templates, IdDiffers(templateId));
      filteredTemplates := Filter(filteredTemplates, IdDiffers(templateId));
    }
  }
}
