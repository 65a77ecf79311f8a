# ACH payments prototype: a Dafny model of its logic

The prototype is a React front end for ACH payments that keeps all of its data in memory.
This project models the parts of it that compute something:

- the template and recipient searches, including the `*` wildcard, the "All …" options that switch a filter off, and the delete and create handlers that keep the full list and the shown list in step;
- the sortable template and recipient tables: their sort-state toggle, their comparators, and the sorted copy they render;
- the payment approval table: its five-row pages cut with `slice`, the pager, the row toggle, the length-based select-all and the action buttons;
- the approval page: its own id list, its dialogs, and the status updates it confirms;
- the quick-entry table, with the same toggle and select-all over a fixed list;
- three step-by-step dialogs: creating a recipient, editing a user, and assigning ACH limits;
- the navigation bar's active-item rule;
- the status enumeration and the record types these work on.

Each React component with state is a class. Its `useState` variables are fields and its handlers are methods with `modifies this`. Props are method parameters. Each handler's `ensures` gives the whole new state in terms of the old one.

The logic inside the handlers is made of pure functions: `filter` predicates, comparators, `slice`, `map` and lookups. Several modules share these:

- `Seqs`: `Array.prototype.filter` and `slice`;
- `Text`: `toLowerCase`, `includes`, `split` and `localeCompare`;
- `Sorting`: a stable `Array.prototype.sort`;
- `Selection`: the checkbox toggle;
- `ListFooter`: the table footers.

Lemmas state what the handlers promise:

- a search result is an order-preserving part of the full list;
- a delete removes exactly one id;
- a sorted copy is a permutation and is in order;
- a toggle flips exactly one key;
- a status update touches exactly the listed ids;
- the pages together cover the list;
- the step counters stay in range.

Modelling choices:

- Strings are sequences of characters. `toLowerCase` folds only ASCII `A`–`Z`.
- `localeCompare` is lexicographic order on character codes, returning -1, 0 or 1.
- Amounts are integer cents.
- `Array.prototype.sort` is a stable insertion sort. For a comparator that is a total preorder, every stable sort gives the same result.
- Identifiers from `uuidv4()` and the date `new Date()` are method parameters.
- The mock lists are constructor parameters or constants.

Two behaviours of the code are modelled as written, with lemmas that show them:

- The approval table's select-all compares only the lengths of the selection and the page. After five payments are selected on page 1, a full page 2 shows its header checked while nothing on it is selected, and clicking the header clears everything (`PaymentApprovalTable.SelectAllIsLengthBased`).
- Next on the pager with no payments sets page 0, which shows nothing (`PaymentApprovalTable.PageZeroIsEmpty`).

## Model

| member | source | states |
|---|---|---|
| Status.StatusName | src/types/status.ts:2 | every status value has a non-empty, lower-case name |
| Status.PaymentStatusName | src/types/status.ts:3 | the payment statuses, `complete` included, have non-empty lower-case names |
| Status.ParseStatusName | src/types/status.ts:2 | parsing a status name gives back that status, and only a status's own name parses to it |
| Status.StatusNameInjective | src/types/status.ts:2 | two statuses have the same name exactly when they are the same status |
| Status.ParseStatus | src/types/status.ts:2 | reads a status literal back, and nothing else; ParseStatusName proves it inverts the names |
| MockData.MockTemplates | src/utils/mockData.ts:63-117 | the mock template list, entry by entry, with amounts in cents |
| MockData.PaymentTypeName | src/utils/mockData.ts:3 | the template payment type literals `PPD` and `CCD` |
| MockData.PaymentStatusName | src/utils/mockData.ts:4 | the six template status literals, all lower-case |
| PaymentModel.Ids | src/components/payments/PaymentApprovalTable.tsx:47 | `map(p => p.id)`: one id per payment, position by position |
| Seqs.Filter | src/pages/Templates.tsx:28-44 | `filter` keeps only entries that pass, and keeps every entry that passes |
| Seqs.FilterIsSubsequence | src/pages/Templates.tsx:22-45 | a filtered list is an order-preserving subsequence of its input |
| Seqs.FilterFilter | src/pages/Templates.tsx:22-45 | filtering in stages equals one filter with the conjunction of the stages |
| Seqs.FilterCommute | src/pages/Templates.tsx:72-73 | two filters can be applied in either order |
| Seqs.FilterAppend | src/pages/MasterRecipientList.tsx:51-52 | filtering a concatenation filters each part |
| Seqs.Slice | src/components/payments/PaymentApprovalTable.tsx:40 | `slice` with clamped bounds gives at most as many entries as the list |
| Selection.HasKey | src/pages/PPDTemplate.tsx:79 | `some(e => key(e) === k)`: some selected entry has the key |
| Selection.UniqueKeys | src/pages/PPDTemplate.tsx:78-84 | no two selected entries share a key, the invariant the toggle keeps |
| Selection.ToggleBy | src/pages/PPDTemplate.tsx:78-84 | the shared toggle: filter out the key when present, append the entry otherwise; ToggleFlipsOnlyThatKey states its effect |
| Selection.ToggleFlipsOnlyThatKey | src/pages/PPDTemplate.tsx:78-84 | after a toggle the clicked key is selected iff it was not, and every other key iff it was |
| Selection.ToggleTwiceFromUnselected | src/pages/PPDTemplate.tsx:78-84 | two clicks on an unselected entry restore the selection exactly |
| Selection.ToggleTwiceFromSelected | src/pages/PPDTemplate.tsx:78-84 | two clicks on a selected entry move it to the end, behind the others in their order |
| Selection.FilterKeepsUniqueKeys | src/pages/PPDTemplate.tsx:80-81 | a filter never introduces a repeated key |
| Selection.ToggleKeepsUniqueKeys | src/pages/PPDTemplate.tsx:78-84 | a toggle keeps the selection free of repeated keys |
| Selection.UniqueKeysBound | src/pages/PPDTemplate.tsx:78-84 | a selection without repeated keys drawn from a set of keys is no longer than the set |
| Text.Lower | src/pages/Templates.tsx:25 | `toLowerCase` on ASCII; LowerIsLower and LowerAppend state its properties |
| Text.Contains | src/pages/Templates.tsx:30 | `includes`, trying each position; ContainsIff states it is occurrence at some index |
| Text.IndexOf | src/pages/Templates.tsx:27 | `indexOf` of a character that occurs is its first position |
| Text.Join | src/pages/Templates.tsx:27 | `join`, the inverse that JoinSplit uses to state that `split` loses nothing |
| Text.LocaleCompare | src/components/templates/TemplateList.tsx:55-58 | `localeCompare` as lexicographic order; LocaleCompareProperties and LocaleCompareTransitive state its laws |
| Text.LowerIsLower | src/pages/Templates.tsx:25 | `toLowerCase` yields a lower-case string and is idempotent |
| Text.LowerAppend | src/pages/Templates.tsx:29 | lowering a concatenation lowers each part |
| Text.ContainsIff | src/pages/Templates.tsx:30 | `includes` holds exactly when the piece occurs at some position |
| Text.ContainsEmpty | src/pages/PPDTemplate.tsx:73 | every string includes the empty string |
| Text.Split | src/pages/Templates.tsx:27 | `split` gives at least one piece and no piece contains the separator |
| Text.JoinSplit | src/pages/Templates.tsx:27 | joining the pieces of `split` with the separator gives back the string |
| Text.SplitAtFirstSeparator | src/pages/Templates.tsx:27 | `split` cuts at the first separator and goes on with the rest |
| Text.LocaleCompareProperties | src/components/templates/TemplateList.tsx:55-58 | the comparison is -1, 0 or 1, is 0 only on equal strings, and is antisymmetric |
| Text.LocaleCompareTransitive | src/components/templates/TemplateList.tsx:55-58 | the comparison is transitive |
| WildcardSearch.Fragments | src/pages/Templates.tsx:27 | the fragments of a pattern are non-empty and contain no `*` |
| WildcardSearch.NameMatches | src/pages/Templates.tsx:24-37 | the three branches of the name filter: empty, wildcard fragments, plain substring |
| WildcardSearch.NameMatchesIffFragmentsOccur | src/pages/Templates.tsx:24-36 | the empty, wildcard and plain branches are one rule: a name matches iff every non-empty fragment of the lowered pattern occurs in the lowered name |
| WildcardSearch.FragmentOrderIrrelevant | src/pages/Recipients.tsx:26-31 | patterns with the same fragments, in any order or repetition, match the same names |
| WildcardSearch.StarMatchesEverything | src/pages/Templates.tsx:26-31 | `*` alone matches every name |
| WildcardSearch.TwoFragments | src/pages/Recipients.tsx:26-31 | `a*b` matches iff the lowered name contains `a` and contains `b`, in either order |
| WildcardSearch.OneFragment | src/pages/Templates.tsx:26-36 | a pattern with a single fragment is a plain case-insensitive substring test |
| WildcardSearch.FragmentsOfAbcStar | src/pages/Templates.tsx:90 | `ABC*` has the single fragment `abc` |
| WildcardSearch.LeadingStar | src/components/templates/TemplateSearch.tsx:56 | `*part` has the single fragment `part` |
| WildcardSearch.FragmentsOfStarConstruction | src/components/templates/TemplateSearch.tsx:56 | `*construction` has the single fragment `construction` |
| WildcardSearch.HelpExampleAbcStar | src/pages/Templates.tsx:90 | the help text's example: `ABC*` finds "ABC Company" |
| WildcardSearch.StarConstructionRule | src/components/recipients/RecipientSearch.tsx:53 | `*construction` matches iff the lowered name contains "construction" |
| WildcardSearch.TooltipExampleMatches | src/components/templates/TemplateSearch.tsx:56 | `*construction` finds every name with "Construction" in it |
| Templates.SearchIsSubsequence | src/pages/Templates.tsx:21-47 | the search result is an order-preserving subsequence of the full list |
| Templates.Search | src/pages/Templates.tsx:21-47 | the staged filters as one pass over the full list; SearchMembership states what it keeps |
| Templates.TypeMatches | src/pages/Templates.tsx:39-41 | the payment-type test, switched off by "All Payment Types" |
| Templates.DefaultFilters | src/components/templates/TemplateSearch.tsx:26-30 | the search form starts with an empty name, "All Payment Types" and "All Statuses"; DefaultFiltersKeepAll states what it selects |
| Templates.StatusMatches | src/pages/Templates.tsx:43-45 | the status test against the lowered filter value, switched off by "All Statuses" |
| Templates.SearchMembership | src/pages/Templates.tsx:24-45 | a template is in the result iff it is in the full list and passes the name, type and status tests |
| Templates.DefaultFiltersKeepAll | src/pages/Templates.tsx:24-45 | the form's initial values (empty name, both "All …" options) keep the whole list |
| Templates.SentinelsSwitchOff | src/pages/Templates.tsx:39-45 | with "All Payment Types" and "All Statuses" only the name test applies |
| Templates.DeleteKeepsSearchInStep | src/pages/Templates.tsx:70-73 | deleting from a result equals searching the list after the delete |
| Templates.DeleteRemovesExactlyThatId | src/pages/Templates.tsx:72-73 | delete keeps exactly the entries with another id, in order |
| Templates.TemplatesPage.constructor | src/pages/Templates.tsx:17-18 | both lists start as the mock templates |
| Templates.TemplatesPage.HandleSearch | src/pages/Templates.tsx:21-47 | the staged filtering over a copy of the full list yields exactly the search result; the full list is kept |
| Templates.TemplatesPage.HandleDeleteTemplate | src/pages/Templates.tsx:70-73 | both lists lose that id and nothing else, and the shown list stays part of the full list |
| Recipients.SearchIsSubsequence | src/pages/Recipients.tsx:21-43 | the result is an order-preserving subsequence of the full list |
| Recipients.Search | src/pages/Recipients.tsx:21-43 | the two filter stages as one pass over the full list |
| Recipients.StatusMatches | src/pages/Recipients.tsx:39-41 | the status test against the lowered filter value, switched off by "All Status" |
| Recipients.DefaultFilters | src/components/recipients/RecipientSearch.tsx:24-27 | the search form starts with an empty name and "All Status"; DefaultFiltersKeepAll states what it selects |
| Recipients.SearchMembership | src/pages/Recipients.tsx:24-41 | a recipient is in the result iff it is in the full list, its name matches and, unless "All Status", its status is the lowered filter value |
| Recipients.DefaultFiltersKeepAll | src/pages/Recipients.tsx:24-41 | the initial filters keep the whole list |
| Recipients.StatusFilterIgnoresCase | src/pages/Recipients.tsx:40 | status filter values that lower to the same string give the same result |
| Recipients.DeleteKeepsSearchInStep | src/pages/Recipients.tsx:61-64 | deleting from a result equals searching the list after the delete |
| Recipients.DeleteRemovesExactlyThatId | src/pages/Recipients.tsx:63-64 | delete keeps exactly the entries with another id, in order |
| Recipients.RecipientsPage.constructor | src/pages/Recipients.tsx:17-18 | both lists start as the mock recipients |
| Recipients.RecipientsPage.HandleSearch | src/pages/Recipients.tsx:21-43 | the two filter stages yield exactly the search result; the full list is kept |
| Recipients.RecipientsPage.HandleDeleteRecipient | src/pages/Recipients.tsx:61-64 | both lists lose that id and nothing else |
| MasterRecipientList.SearchIsSubsequence | src/pages/MasterRecipientList.tsx:22-38 | the result is an order-preserving subsequence of the full list |
| MasterRecipientList.Search | src/pages/MasterRecipientList.tsx:22-38 | the two filter stages as one pass over the full list |
| MasterRecipientList.NameMatches | src/pages/MasterRecipientList.tsx:25-30 | a plain case-insensitive substring test, skipped for an empty filter |
| MasterRecipientList.StatusMatches | src/pages/MasterRecipientList.tsx:32-36 | the case-insensitive status test on an optional status, skipped for "" and "All Status" |
| MasterRecipientList.SearchMembership | src/pages/MasterRecipientList.tsx:25-36 | a recipient is in the result iff it is in the list, its lowered name contains the lowered filter, and it passes the case-insensitive status test when that is active |
| MasterRecipientList.MissingStatusNeverMatches | src/pages/MasterRecipientList.tsx:32-36 | a recipient without a status never passes an active status filter |
| MasterRecipientList.StarIsLiteral | src/pages/MasterRecipientList.tsx:25-30 | `*` is an ordinary character here: `a*` finds no name without a `*` |
| MasterRecipientList.CreateIgnoresActiveSearch | src/pages/MasterRecipientList.tsx:50-53 | a created recipient that fails the active filter is still appended to the shown list |
| MasterRecipientList.DeleteKeepsSearchInStep | src/pages/MasterRecipientList.tsx:69-72 | deleting from a result equals searching the list after the delete |
| MasterRecipientList.DeleteRemovesExactlyThatId | src/pages/MasterRecipientList.tsx:70-72 | delete keeps exactly the entries with another id, in order |
| MasterRecipientList.MasterRecipientListPage.constructor | src/pages/MasterRecipientList.tsx:18-20 | both lists start as the mock recipients, the modal closed |
| MasterRecipientList.MasterRecipientListPage.HandleSearch | src/pages/MasterRecipientList.tsx:22-38 | the shown list becomes exactly the search result |
| MasterRecipientList.MasterRecipientListPage.HandleCreateRecipient | src/pages/MasterRecipientList.tsx:46-48 | the modal opens; the lists are untouched |
| MasterRecipientList.MasterRecipientListPage.CloseCreateModal | src/pages/MasterRecipientList.tsx:126 | the modal closes; the lists are untouched |
| MasterRecipientList.MasterRecipientListPage.HandleRecipientCreated | src/pages/MasterRecipientList.tsx:50-53 | the recipient is appended to both lists and the modal closes; the shown list stays part of the full list |
| MasterRecipientList.MasterRecipientListPage.HandleDeleteRecipient | src/pages/MasterRecipientList.tsx:69-72 | both lists lose that id and nothing else |
| PpdTemplatePage.MissingFields | src/pages/PPDTemplate.tsx:49-57 | no error message exactly when the five required fields are non-empty |
| PpdTemplatePage.FormValid | src/pages/PPDTemplate.tsx:49-57 | the schema: five required strings, the other two optional |
| PpdTemplatePage.Merge | src/pages/PPDTemplate.tsx:99-103 | `{...ppdTemplate, ...values}` over the template state |
| PpdTemplatePage.InitialTemplate | src/pages/PPDTemplate.tsx:38-47 | the initial template: today's date, empty fields, no recipients |
| PpdTemplatePage.QueryMatches | src/pages/PPDTemplate.tsx:73-75 | the three-field lowered `includes` test |
| PpdTemplatePage.FilteredRecipients | src/pages/PPDTemplate.tsx:72-76 | the list filtered by that test; FilteredRecipientsMembership states what it keeps |
| PpdTemplatePage.MergeTakesValues | src/pages/PPDTemplate.tsx:99-103 | after the merge the form fields are the submitted values; id and recipients are the template's |
| PpdTemplatePage.MergeOverwrites | src/pages/PPDTemplate.tsx:99-103 | a later submission wins completely; merging a template's own values changes nothing |
| PpdTemplatePage.FilteredRecipientsMembership | src/pages/PPDTemplate.tsx:72-76 | a recipient is listed iff the lowered query occurs in its lowered name, recipient id or account number; order is kept |
| PpdTemplatePage.EmptyQueryListsAll | src/pages/PPDTemplate.tsx:72-76 | an empty query lists every recipient in order |
| PpdTemplatePage.QueryIgnoresCase | src/pages/PPDTemplate.tsx:72-76 | queries that lower to the same string list the same recipients |
| PpdTemplatePage.PpdTemplatePage.constructor | src/pages/PPDTemplate.tsx:35-47 | the dialog is closed, nothing is selected, the query is empty, the template has today's date and empty fields |
| PpdTemplatePage.PpdTemplatePage.OpenSelectRecipients | src/pages/PPDTemplate.tsx:35 | the picker opens; nothing else changes |
| PpdTemplatePage.PpdTemplatePage.SetSearchQuery | src/pages/PPDTemplate.tsx:37 | only the query changes |
| PpdTemplatePage.PpdTemplatePage.HandleSelectRecipient | src/pages/PPDTemplate.tsx:78-84 | the clicked id's selection flips, every other id's is kept, and no id is selected twice |
| PpdTemplatePage.PpdTemplatePage.HandleDoneSelectingRecipients | src/pages/PPDTemplate.tsx:86-91 | the template's recipients become the selection, every other template field is kept, and the dialog closes |
| PpdTemplatePage.PpdTemplatePage.CancelSelectRecipients | src/pages/PPDTemplate.tsx:551-557 | the dialog closes; selection and template are untouched |
| PpdTemplatePage.PpdTemplatePage.HandleSubmitPpdForm | src/pages/PPDTemplate.tsx:99-103 | the template becomes the merge of the valid values over it |
| PpdTemplatePage.PpdTemplatePage.HandleSaveIncomplete | src/pages/PPDTemplate.tsx:125-130 | the draft has status "draft", the selection as recipients, and otherwise the template's fields |
| Sorting.NextSort | src/components/templates/TemplateList.tsx:36-43 | the clicked field becomes the sort field; the direction is ascending unless the same field was ascending |
| Sorting.NextSortTwice | src/components/recipients/RecipientList.tsx:30-37 | two clicks on the current field restore the state; two on a new field give descending |
| Sorting.SortBy | src/components/templates/TemplateList.tsx:51 | the sorted copy has the same entries, a permutation of the input |
| Sorting.SortByAdjacentSorted | src/components/templates/TemplateList.tsx:51-66 | for an antisymmetric comparator, neighbours of the sorted copy are in order |
| Sorting.AdjacentSortedIsSorted | src/components/templates/TemplateList.tsx:51-66 | for a transitive comparator, neighbours in order means every pair in order |
| Sorting.SortByStable | src/components/templates/TemplateList.tsx:65 | entries that compare equal keep their input order |
| Sorting.SortByAllEqual | src/components/recipients/RecipientList.tsx:55 | when every pair compares 0 the copy is the input |
| TemplateList.SortedTemplates | src/components/templates/TemplateList.tsx:51 | the rendered list is a permutation of the templates |
| TemplateList.ValueOf | src/components/templates/TemplateList.tsx:52-53 | a field's value as a string or a number |
| TemplateList.InitialSort | src/components/templates/TemplateList.tsx:33-34 | the table starts sorted by name, ascending |
| TemplateList.CompareValues | src/components/templates/TemplateList.tsx:55-65 | strings by `localeCompare`, numbers by subtraction, reversed for `desc`, any other pair 0 |
| TemplateList.Comparator | src/components/templates/TemplateList.tsx:51-66 | the comparator the sort gets, on the chosen field |
| TemplateList.CompareValuesFlips | src/components/templates/TemplateList.tsx:55-65 | swapping two values turns a positive comparison negative |
| TemplateList.ComparatorTransitive | src/components/templates/TemplateList.tsx:52-65 | the comparator is transitive, because a field holds the same kind of value in every template |
| TemplateList.SortedTemplatesInOrder | src/components/templates/TemplateList.tsx:51-66 | every template compares no greater than every later one |
| TemplateList.SortedByAmount | src/components/templates/TemplateList.tsx:61-63 | sorting by amount orders amounts ascending, or descending for `desc` |
| TemplateList.SortedByName | src/components/templates/TemplateList.tsx:55-58 | sorting by name orders names by the string comparison, reversed for `desc` |
| TemplateList.SortedTemplatesStable | src/components/templates/TemplateList.tsx:65 | templates with equal sort values keep their input order |
| TemplateList.TemplateListTable.constructor | src/components/templates/TemplateList.tsx:33-34 | the initial sort is by name, ascending |
| TemplateList.TemplateListTable.HandleSort | src/components/templates/TemplateList.tsx:36-43 | the sort state becomes the toggle of the old one |
| RecipientList.SortedRecipients | src/components/recipients/RecipientList.tsx:45 | the rendered list is a permutation of the recipients |
| RecipientList.StringValue | src/components/recipients/RecipientList.tsx:46-47 | a field's value when it is a string, `None` when missing or not a string |
| RecipientList.InitialSort | src/components/recipients/RecipientList.tsx:27-28 | the table starts sorted by name, ascending |
| RecipientList.CompareValues | src/components/recipients/RecipientList.tsx:49-55 | two strings by `localeCompare`, reversed for `desc`; 0 if either is not a string |
| RecipientList.Comparator | src/components/recipients/RecipientList.tsx:45-56 | the comparator the sort gets, on the chosen field |
| RecipientList.ComparatorFlips | src/components/recipients/RecipientList.tsx:49-55 | swapping two recipients turns a positive comparison negative |
| RecipientList.SortedRecipientsNeighboursInOrder | src/components/recipients/RecipientList.tsx:45-56 | neighbours of the sorted copy are in order, whatever values are missing |
| RecipientList.ComparatorTransitive | src/components/recipients/RecipientList.tsx:49-53 | on recipients that all have a string in the field, the comparator is transitive |
| RecipientList.SortedRecipientsInOrder | src/components/recipients/RecipientList.tsx:45-56 | when every recipient has a string in the field, the copy is fully ordered |
| RecipientList.SortedByName | src/components/recipients/RecipientList.tsx:49-53 | sorting by name orders names by the string comparison, reversed for `desc` |
| RecipientList.MissingValuesKeepOrder | src/components/recipients/RecipientList.tsx:55 | when no recipient has a string in the field, the copy is the input |
| RecipientList.SortedRecipientsStable | src/components/recipients/RecipientList.tsx:55 | recipients with equal values, or all missing it, keep their input order |
| RecipientList.RecipientListTable.constructor | src/components/recipients/RecipientList.tsx:27-28 | the initial sort is by name, ascending |
| RecipientList.RecipientListTable.HandleSort | src/components/recipients/RecipientList.tsx:30-37 | the sort state becomes the toggle of the old one |
| ListFooter.ShownCount | src/components/templates/TemplateList.tsx:161-167 | the footer's count is `min(len, 10)`: all entries, or ten |
| ListFooter.PageButtonsDisabled | src/components/recipients/RecipientList.tsx:132-138 | the page buttons are disabled iff every entry is shown |
| PaymentApprovalTable.TotalPages | src/components/payments/PaymentApprovalTable.tsx:41 | `ceil(len / 5)`: enough pages for every payment and no empty last page; zero iff there are no payments |
| PaymentApprovalTable.CurrentItems | src/components/payments/PaymentApprovalTable.tsx:37-40 | the current page as `slice(first, last)`; PageContents states its contents |
| PaymentApprovalTable.ToggleId | src/components/payments/PaymentApprovalTable.tsx:51-57 | the row toggle on the id list; ToggleIdFlips states its effect |
| PaymentApprovalTable.HeaderChecked | src/components/payments/PaymentApprovalTable.tsx:71 | the header is checked when the counts are equal and the page is not empty |
| PaymentApprovalTable.PageContents | src/components/payments/PaymentApprovalTable.tsx:35-40 | page p is `payments[(p-1)*5 .. min(p*5, len)]` cut at the end, at most five, empty past the end |
| PaymentApprovalTable.PageZeroIsEmpty | src/components/payments/PaymentApprovalTable.tsx:38-40 | page 0 shows nothing |
| PaymentApprovalTable.FirstPagesArePrefix | src/components/payments/PaymentApprovalTable.tsx:38-40 | pages 1 to k together are the first `min(5k, len)` payments |
| PaymentApprovalTable.PagesCoverAll | src/components/payments/PaymentApprovalTable.tsx:38-41 | the pages the pager lists together are the whole list, each payment once, in order |
| PaymentApprovalTable.ToggleIdFlips | src/components/payments/PaymentApprovalTable.tsx:51-57 | the row toggle flips the clicked id and keeps every other id as it was |
| PaymentApprovalTable.HasKeyIsIn | src/components/payments/PaymentApprovalTable.tsx:52 | the toggle's key test is `includes` |
| PaymentApprovalTable.SelectAll | src/components/payments/PaymentApprovalTable.tsx:43-49 | equal lengths clear the selection; otherwise it becomes exactly the page's ids in page order |
| PaymentApprovalTable.SelectAllIsLengthBased | src/components/payments/PaymentApprovalTable.tsx:43-71 | a selection as long as the page but disjoint from it shows the header checked and is cleared by a click |
| PaymentApprovalTable.SelectAllTwice | src/components/payments/PaymentApprovalTable.tsx:43-71 | on an unchecked non-empty page a click checks the header, a second click clears |
| PaymentApprovalTable.PaymentApprovalTableState.constructor | src/components/payments/PaymentApprovalTable.tsx:33-34 | nothing is selected and the page is 1 |
| PaymentApprovalTable.PaymentApprovalTableState.HandleSelectAll | src/components/payments/PaymentApprovalTable.tsx:43-49 | the selection becomes the select-all of the current page |
| PaymentApprovalTable.PaymentApprovalTableState.HandleSelectPayment | src/components/payments/PaymentApprovalTable.tsx:51-57 | the selection becomes its toggle and gains no duplicate id |
| PaymentApprovalTable.PaymentApprovalTableState.Previous | src/components/payments/PaymentApprovalTable.tsx:210 | the page becomes `max(p-1, 1)` |
| PaymentApprovalTable.PaymentApprovalTableState.Next | src/components/payments/PaymentApprovalTable.tsx:228 | the page becomes `min(p+1, totalPages)`, never negative |
| PaymentApprovalTable.PaymentApprovalTableState.GoToPage | src/components/payments/PaymentApprovalTable.tsx:215-219 | a page link sets that page |
| PaymentApprovalTable.PaymentApprovalTableState.ClickBulkAction | src/components/payments/PaymentApprovalTable.tsx:150-186 | Reject, Approve and Reverse TXNS send a request iff something is selected, and send the whole selection |
| PaymentApprovalTable.PaymentApprovalTableState.ClickReversePayment | src/components/payments/PaymentApprovalTable.tsx:192-199 | Reverse Payment sends a request iff exactly one id is selected, and sends that id |
| PaymentApproval.WithStatus | src/pages/PaymentApproval.tsx:40-45 | the update keeps the length and sets the status of exactly the payments whose ids are listed |
| PaymentApproval.SelectedPayments | src/pages/PaymentApproval.tsx:30-32 | `payments.filter(p => ids.includes(p.id))`; SelectedPaymentsMembership states what it keeps |
| PaymentApproval.WithStatusKeepsIds | src/pages/PaymentApproval.tsx:40-45 | ids, order and every field but the status are kept |
| PaymentApproval.WithStatusIdempotent | src/pages/PaymentApproval.tsx:91-96 | repeating an update changes nothing more; an empty id list changes nothing |
| PaymentApproval.SelectedPaymentsMembership | src/pages/PaymentApproval.tsx:30-32 | a payment is selected iff it is in the list and its id is listed; order is kept |
| PaymentApproval.UnknownIdsIgnored | src/pages/PaymentApproval.tsx:30-32 | ids that name no payment do not change the selection |
| PaymentApproval.SelectedHaveStatus | src/pages/PaymentApproval.tsx:62-69 | after an update every selected payment has the new status |
| PaymentApproval.PaymentApprovalPage.constructor | src/pages/PaymentApproval.tsx:24-28 | the mock payments, no ids, every dialog and view closed |
| PaymentApproval.PaymentApprovalPage.HandleApprove | src/pages/PaymentApproval.tsx:34-37 | the ids are stored and only the approve dialog opens; payments unchanged |
| PaymentApproval.PaymentApprovalPage.ConfirmApprove | src/pages/PaymentApproval.tsx:39-49 | the listed payments become approved, the ids are cleared and the dialog closes |
| PaymentApproval.PaymentApprovalPage.CloseApproveDialog | src/pages/PaymentApproval.tsx:182 | the dialog closes; ids and payments stay |
| PaymentApproval.PaymentApprovalPage.HandleReject | src/pages/PaymentApproval.tsx:57-60 | the ids are stored and only the reject dialog opens; payments unchanged |
| PaymentApproval.PaymentApprovalPage.ConfirmReject | src/pages/PaymentApproval.tsx:62-72 | the listed payments become rejected, the ids are cleared and the dialog closes |
| PaymentApproval.PaymentApprovalPage.CloseRejectDialog | src/pages/PaymentApproval.tsx:198 | the dialog closes; ids and payments stay |
| PaymentApproval.PaymentApprovalPage.HandleReverseTxns | src/pages/PaymentApproval.tsx:80-83 | the ids are stored and the reversal view shows |
| PaymentApproval.PaymentApprovalPage.HandleReversePayment | src/pages/PaymentApproval.tsx:85-88 | the id list becomes exactly `[id]` and the reversal view shows |
| PaymentApproval.PaymentApprovalPage.HandleSubmitReversal | src/pages/PaymentApproval.tsx:90-100 | the listed payments become reversed, the view hides and the ids are cleared |
| PaymentApproval.PaymentApprovalPage.CancelReversal | src/pages/PaymentApproval.tsx:166 | the view hides; payments and ids stay |
| QuickEntryTable.CheckboxChangeFlips | src/components/payments/QuickEntryTable.tsx:45-52 | the reported list removes the template by id if selected, appends it otherwise, and keeps every other row's selection |
| QuickEntryTable.CheckboxChangeTwice | src/components/payments/QuickEntryTable.tsx:45-52 | clicking an unselected row twice reports the original list |
| QuickEntryTable.QuickTemplates | src/components/payments/QuickEntryTable.tsx:8-31 | the table's own two templates |
| QuickEntryTable.CheckboxChange | src/components/payments/QuickEntryTable.tsx:45-52 | the row toggle by template id |
| QuickEntryTable.IsSelected | src/components/payments/QuickEntryTable.tsx:62-63 | some selected template has the row's id |
| QuickEntryTable.SelectAll | src/components/payments/QuickEntryTable.tsx:54-60 | a full count clears, otherwise the whole list |
| QuickEntryTable.HeaderChecked | src/components/payments/QuickEntryTable.tsx:72 | the header compares counts only |
| QuickEntryTable.ReachableSelections | src/pages/QuickEntry.tsx:25 | the selection starts empty, and the row and header clicks keep it made of rows without a repeated id |
| QuickEntryTable.HeaderCheckedIffAllSelected | src/components/payments/QuickEntryTable.tsx:62-72 | on those selections the count test of the header holds iff every row is selected |
| QuickEntryTable.SelectAllCases | src/components/payments/QuickEntryTable.tsx:54-72 | a full count clears, otherwise the whole list is reported in order, every row shows selected and a second click clears |
| CreateRecipientModal.WithText | src/components/recipients/CreateRecipientModal.tsx:52-55 | an input change sets that field and leaves every other field as it was |
| CreateRecipientModal.WithTextOverwrites | src/components/recipients/CreateRecipientModal.tsx:52-55 | the second of two writes to a field wins |
| CreateRecipientModal.BankNameFor | src/components/recipients/CreateRecipientModal.tsx:315-323 | a listed routing number gives its bank's name, any other gives "Unknown Bank" |
| CreateRecipientModal.DefaultForm | src/components/recipients/CreateRecipientModal.tsx:24-41 | the initial form: Individual, PPD, Checking, From List, empty strings, no contact data |
| CreateRecipientModal.UnknownBankIsFallback | src/components/recipients/CreateRecipientModal.tsx:323 | the name is "Unknown Bank" iff the routing number is not listed |
| CreateRecipientModal.NewRecipientFromForm | src/components/recipients/CreateRecipientModal.tsx:69-83 | the recipient copies name, recipient id, bank id and name, account number and type, has the fresh id, status "Active", ACH enabled, and no optional payment fields |
| CreateRecipientModal.NewRecipient | src/components/recipients/CreateRecipientModal.tsx:69-83 | the recipient object built on submit; NewRecipientFromForm states its fields |
| CreateRecipientModal.ChosenBankReachesRecipient | src/components/recipients/CreateRecipientModal.tsx:69-83 | choosing a listed bank and submitting stores that bank's name |
| CreateRecipientModal.CreateRecipientWizard.constructor | src/components/recipients/CreateRecipientModal.tsx:24-41 | step 1 and the default form |
| CreateRecipientModal.CreateRecipientWizard.Next | src/components/recipients/CreateRecipientModal.tsx:44-46 | offered below step 3, it adds one to the step and touches nothing else |
| CreateRecipientModal.CreateRecipientWizard.Back | src/components/recipients/CreateRecipientModal.tsx:48-50 | offered above step 1, it subtracts one from the step and touches nothing else |
| CreateRecipientModal.CreateRecipientWizard.InputChange | src/components/recipients/CreateRecipientModal.tsx:52-55 | the form becomes the single-field write |
| CreateRecipientModal.CreateRecipientWizard.SetAchRecipientType | src/components/recipients/CreateRecipientModal.tsx:61-63 | only the recipient type changes |
| CreateRecipientModal.CreateRecipientWizard.SetPaymentType | src/components/recipients/CreateRecipientModal.tsx:61-63 | only the payment type changes |
| CreateRecipientModal.CreateRecipientWizard.SetAccountType | src/components/recipients/CreateRecipientModal.tsx:57-59 | only the account type changes |
| CreateRecipientModal.CreateRecipientWizard.SetBankSelectionMethod | src/components/recipients/CreateRecipientModal.tsx:61-63 | only the bank selection method changes |
| CreateRecipientModal.CreateRecipientWizard.SetAddContactInfo | src/components/recipients/CreateRecipientModal.tsx:65-67 | only the contact checkbox changes |
| CreateRecipientModal.CreateRecipientWizard.ChooseBank | src/components/recipients/CreateRecipientModal.tsx:315-323 | the bank id becomes the choice and the bank name its lookup |
| CreateRecipientModal.CreateRecipientWizard.Submit | src/components/recipients/CreateRecipientModal.tsx:69-99 | on step 3 it returns the recipient built from the form, then the form is the default and the step is 1 |
| CreateRecipientModal.CreateRecipientWizard.Cancel | src/components/recipients/CreateRecipientModal.tsx:102-117 | the dialog closes, the form is the default and the step is 1 |
| EditUser.WithField | src/components/settings/EditUser.tsx:57-59 | a field update sets that field and keeps every other |
| EditUser.FormExt | src/components/settings/EditUser.tsx:29-43 | forms that agree on every field are equal |
| EditUser.DefaultForm | src/components/settings/EditUser.tsx:29-43 | the initial form values |
| EditUser.UserStatusName | src/components/settings/EditUser.tsx:17 | the eight user status literals, all lower-case |
| EditUser.PrimaryLabel | src/components/settings/EditUser.tsx:247 | the caption rule that EditUserDialog.Next is stated by: the primary button reads "Save" exactly on step 3 and "Next" on every other step |
| EditUser.WithFieldOverwrites | src/components/settings/EditUser.tsx:57-59 | the second write wins; writing a field's own value changes nothing |
| EditUser.LoadUser | src/components/settings/EditUser.tsx:45-55 | a user overwrites exactly first name, last name, user id and status; no user changes nothing |
| EditUser.LoadUserIdempotent | src/components/settings/EditUser.tsx:45-55 | loading the same user again changes nothing |
| EditUser.LoadUserForgetsLoadedFields | src/components/settings/EditUser.tsx:45-59 | loading a user wipes out an earlier edit of a loaded field |
| EditUser.EditUserDialog.constructor | src/components/settings/EditUser.tsx:28-55 | step 1 and the default form with the user loaded |
| EditUser.EditUserDialog.UserChanged | src/components/settings/EditUser.tsx:45-55 | a new user prop loads into the form |
| EditUser.EditUserDialog.InputChange | src/components/settings/EditUser.tsx:57-59 | the form becomes the single-field write |
| EditUser.EditUserDialog.Next | src/components/settings/EditUser.tsx:61-80 | the button reading "Next" (below step 3) adds one to the step; the one reading "Save" (step 3) closes the dialog and goes back to step 1; the form is kept either way |
| EditUser.EditUserDialog.Back | src/components/settings/EditUser.tsx:69-71 | offered above step 1, it subtracts one |
| EditUser.EditUserDialog.Cancel | src/components/settings/EditUser.tsx:243-245 | the dialog closes; step and form stay |
| AssignAchLimit.WithField | src/components/settings/AssignAchLimit.tsx:29-32 | an input change sets that field and keeps the other two |
| AssignAchLimit.EmptyFormIsEmpty | src/components/settings/AssignAchLimit.tsx:23-26 | every field of the initial form is empty |
| AssignAchLimit.NextStep | src/components/settings/AssignAchLimit.tsx:34-38 | one step on below 8, nothing on 8 |
| AssignAchLimit.ShowsLimitFields | src/components/settings/AssignAchLimit.tsx:56 | the limit inputs with Back and Save are drawn exactly on step 8; Next, Back, InputChange and Save are stated by it |
| AssignAchLimit.NextsSaturate | src/components/settings/AssignAchLimit.tsx:22-38 | k clicks on Next from step 1 reach `min(1+k, 8)`, so the step stays in 1..8 |
| AssignAchLimit.SevenNextsReachLimits | src/components/settings/AssignAchLimit.tsx:34-56 | seven clicks on Next from step 1 bring up the limit fields, and fewer clicks do not |
| AssignAchLimit.AchLimitWizard.constructor | src/components/settings/AssignAchLimit.tsx:22-26 | step 1 and an empty form |
| AssignAchLimit.AchLimitWizard.Next | src/components/settings/AssignAchLimit.tsx:34-38 | the step becomes its successor capped at 8: on the limit fields it stays, before them it goes up by one; the form stays |
| AssignAchLimit.AchLimitWizard.Back | src/components/settings/AssignAchLimit.tsx:98-101 | Back, drawn only with the limit fields, goes from step 8 to step 7 and keeps the form |
| AssignAchLimit.AchLimitWizard.InputChange | src/components/settings/AssignAchLimit.tsx:29-32 | an input, drawn only with the limit fields, sets that field and keeps the step |
| AssignAchLimit.AchLimitWizard.Save | src/components/settings/AssignAchLimit.tsx:40-52 | Save, drawn only with the limit fields, goes back to step 1 with all three fields empty |
| Navigation.SomeChildAt | src/components/layout/Navigation.tsx:51 | `some` over the children holds iff some child's path equals the current path |
| Navigation.PaymentsMenu | src/components/layout/Navigation.tsx:12-23 | PAYMENTS at `/payments` with its seven children, `/recipients/master` among them |
| Navigation.ReportsMenu | src/components/layout/Navigation.tsx:24-31 | REPORTS at `/reports` with its two children |
| Navigation.AdministrationMenu | src/components/layout/Navigation.tsx:32-40 | ADMINISTRATION at `/settings` with its three children |
| Navigation.NavigationItems | src/components/layout/Navigation.tsx:11-42 | the three top-level menus in the order the bar draws them |
| Navigation.IsActive | src/components/layout/Navigation.tsx:48-54 | `isActive`: own path, or some child's path; IsActiveIff states it |
| Navigation.ActivePaths | src/components/layout/Navigation.tsx:48-54 | the set of paths that highlight an item |
| Navigation.IsActiveIff | src/components/layout/Navigation.tsx:48-54 | an item is active iff the current path is its own path or one of its children's, exactly |
| Navigation.ChildlessItemActiveOnlyOnItsPath | src/components/layout/Navigation.tsx:53 | an item without children is active only on its own path |
| Navigation.MasterRecipientListHighlightsPayments | src/components/layout/Navigation.tsx:14-23 | `/recipients/master` highlights PAYMENTS and no other menu |
| Navigation.DeeperPathHighlightsNothing | src/components/layout/Navigation.tsx:48-54 | matching is exact: `/payments/new/`, one character below the child path `/payments/new`, highlights no menu |
| Navigation.PaymentsChildShape | src/components/layout/Navigation.tsx:14-23 | every PAYMENTS child path starts `/p` or `/rec` |
| Navigation.PaymentsActiveShape | src/components/layout/Navigation.tsx:11-24 | a path that highlights PAYMENTS starts `/p` or `/rec` |
| Navigation.ReportsActiveShape | src/components/layout/Navigation.tsx:25-32 | a path that highlights REPORTS starts `/rep` |
| Navigation.AdministrationActiveShape | src/components/layout/Navigation.tsx:33-41 | a path that highlights ADMINISTRATION starts `/s` |
| Navigation.ShapesDisjoint | src/components/layout/Navigation.tsx:11-41 | no path starts both as a PAYMENTS path and as a REPORTS or ADMINISTRATION path, nor as both of the latter |
| Navigation.AtMostOneActive | src/components/layout/Navigation.tsx:11-54 | no path highlights two menus |

## Left out

- Rendering, styling and layout are left out: the JSX, the presentational components, the charts and the stub pages. They compute nothing.
- Toasts, routing (`useNavigate`, `useLocation`) and the QuickEntry and QuickEntryPreview pages are left out. These pages only guard navigation.
- `uuidv4()` and `new Date()` are left out. The fresh id and today's date are parameters.
- zod and react-hook-form are left out. Only the required-non-empty rule and its messages are modelled. `z.coerce.number()` for the template limit is not.
- Number formatting with `toLocaleString` and `toFixed` is left out, because it is floating point and locale dependent.
- `localeCompare`'s locale rules, such as accents and case weighting, are left out. It is lexicographic by character code here.
- `toLowerCase` beyond ASCII is left out. Non-ASCII letters are kept as they are.
- Sorting.SortBy: `Array.prototype.sort` is pinned to one stable algorithm. The recipient comparator is not a total preorder when values are missing, so there ECMAScript allows other orders and the model fixes one.
- The Delete and Export buttons of the approval table are left out. Their handlers do nothing.
- The `disabled` attributes of Previous and Next are not modelled. Previous is disabled on page 1 and Next on the last page. The handlers clamp either way, so the modelled clicks stay correct when enabled.
- Remounting the approval table is left out. Closing the reversal view does it, and it resets the table's selection and page. The table's constructor is that reset.
- The dashboard tallies and the user settings wiring are left out. They are one-line counts over mock data.
- The mock data contents are only partly modelled. The template mocks and the quick-entry list are reproduced; the payment and recipient mock lists are parameters.
- The `PPDTemplate` record type is declared, but the page's `Partial<PPDTemplate>` state is modelled by its own record of the fields the page uses, and the full type is otherwise unused.
- CreateRecipientModal.CreateRecipientWizard.Submit: the modal itself does not close the dialog; the parent's `onRecipientCreated` does.
- AssignAchLimit.AchLimitWizard.InputChange: the inputs exist only on step 8, so the method requires step 8.
