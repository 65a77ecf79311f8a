/** The quick-entry table (src/components/payments/QuickEntryTable.tsx): a fixed list of two
    templates whose selection is owned by the parent page. Each checkbox handler reports a
    new selection through a callback, so each is modelled as the function computing the
    list it reports. Its footer, "Showing min(10, n) of n entries" over its own list, is
    `ListFooter.ShownCount` of `|QuickTemplates()|`. */
module QuickEntryTable {
  import opened Wrappers
  import opened Selection
  import opened MockData

  /** The `Template` of src/pages/QuickEntry.tsx; the amount is in cents. */
  datatype QuickTemplate = QuickTemplate(
    id: string,
    name: string,
    description: string,
    paymentDate: string,
    companyAccount: string,
    accountIdentifier: string,
    paymentType: PaymentType,
    recipient: string,
    recipientBank: Option<string>,
    totalAmountCents: int)

  function QuickTemplateKey(t: QuickTemplate): string
  {
    t.id
  }

  /** The table's own list. */
  function QuickTemplates(): seq<QuickTemplate>
  {
    [ QuickTemplate("1", "Bi-weekly payroll", "Payroll", "", "*****2534", "7451266791 - E2ETesting7",
                    Ppd, "View Recipients", None, 1850),
      QuickTemplate("2", "Invoices", "Test", "", "*****8189", "6264419538 - E2ETesting2",
                    Ccd, "View Recipients", None, 2025) ]
  }

  /** `handleCheckboxChange`: the list reported for a click on a row. */
  function CheckboxChange(selected: seq<QuickTemplate>, t: QuickTemplate): seq<QuickTemplate>
  {
    ToggleBy(selected, t, QuickTemplateKey)
  }

  /** `isSelected`: some selected entry has the template's id. */
  predicate IsSelected(selected: seq<QuickTemplate>, t: QuickTemplate)
  {
    HasKey(selected, QuickTemplateKey, t.id)
  }

  /** `handleSelectAll`: the list reported for a click on the header. */
  function SelectAll(selected: seq<QuickTemplate>): seq<QuickTemplate>
  {
    if |selected| == |QuickTemplates()| then [] else QuickTemplates()
  }

  /** The header checkbox compares counts only. */
  predicate HeaderChecked(selected: seq<QuickTemplate>)
  {
    |selected| == |QuickTemplates()|
  }

  /** A row click reports a list in which that row's selection is flipped and every other
      row's is as before; entries with other ids are reported unchanged and in order. */
  lemma CheckboxChangeFlips(selected: seq<QuickTemplate>, t: QuickTemplate, u: QuickTemplate)
    ensures IsSelected(CheckboxChange(selected, t), u) <==>
      (if u.id == t.id then !IsSelected(selected, u) else IsSelected(selected, u))
    ensures IsSelected(selected, t) ==> CheckboxChange(selected, t) == Seqs.Filter(selected, KeyDiffers(QuickTemplateKey, t.id))
    ensures !IsSelected(selected, t) ==> CheckboxChange(selected, t) == selected + [t]
  {
    ToggleFlipsOnlyThatKey(selected, t, QuickTemplateKey, u.id);
  }

  /** Clicking an unselected row twice reports the original selection. */
  lemma CheckboxChangeTwice(selected: seq<QuickTemplate>, t: QuickTemplate)
    requires !IsSelected(selected, t)
    ensures CheckboxChange(CheckboxChange(selected, t), t) == selected
  {
    ToggleTwiceFromUnselected(selected, t, QuickTemplateKey);
  }

  /** The header click clears the selection when it counts as many entries as the list, and
      otherwise reports the whole list in list order; a second click then clears it. */
  lemma SelectAllCases(selected: seq<QuickTemplate>)
    ensures HeaderChecked(selected) ==> SelectAll(selected) == []
    ensures !HeaderChecked(selected) ==>
      (SelectAll(selected) == QuickTemplates() && HeaderChecked(SelectAll(selected)) &&
       SelectAll(SelectAll(selected)) == [])
    ensures !HeaderChecked(selected) ==> forall t :: t in QuickTemplates() ==> IsSelected(SelectAll(selected), t)
  {
    if !HeaderChecked(selected) {
      forall t | t in QuickTemplates() ensures IsSelected(SelectAll(selected), t) {
        var i :| 0 <= i < |QuickTemplates()| && QuickTemplates()[i] == t;
        assert QuickTemplateKey(SelectAll(selected)[i]) == t.id;
      }
    }
  }

  /** The selections the parent page can hold: it starts with `[]`, and each handler reports
      a list built from the table's rows, so entries are rows and no id appears twice. */
  predicate Reachable(selected: seq<QuickTemplate>)
  {
    UniqueKeys(selected, QuickTemplateKey) &&
    forall i :: 0 <= i < |selected| ==> selected[i] in QuickTemplates()
  }

  /** The empty start is reachable, and both handlers keep a selection reachable. */
  lemma ReachableSelections(selected: seq<QuickTemplate>, t: QuickTemplate)
    ensures Reachable([])
    ensures Reachable(selected) && t in QuickTemplates() ==> Reachable(CheckboxChange(selected, t))
    ensures Reachable(selected) ==> Reachable(SelectAll(selected))
  {
    var q := QuickTemplates();
    assert q[0].id == "1" && q[1].id == "2";
    if Reachable(selected) && t in q {
      ToggleKeepsUniqueKeys(selected, t, QuickTemplateKey);
      var r := CheckboxChange(selected, t);
      if IsSelected(selected, t) {
        var keep := KeyDiffers(QuickTemplateKey, t.id);
        forall i | 0 <= i < |r| ensures r[i] in q {
          assert r[i] in Seqs.Filter(selected, keep);
          var j :| 0 <= j < |selected| && selected[j] == r[i];
        }
      } else {
        forall i | 0 <= i < |r| ensures r[i] in q {
          if i < |selected| { assert r[i] == selected[i]; } else { assert r[i] == t; }
        }
      }
    }
  }

  /** The header compares counts only, but on a reachable selection that is the same as every
      row being selected. */
  lemma HeaderCheckedIffAllSelected(selected: seq<QuickTemplate>)
    requires Reachable(selected)
    ensures HeaderChecked(selected) <==> forall t :: t in QuickTemplates() ==> IsSelected(selected, t)
  {
    var q := QuickTemplates();
    assert q[0].id == "1" && q[1].id == "2";
    forall i | 0 <= i < |selected| ensures QuickTemplateKey(selected[i]) in {"1", "2"} {
      assert selected[i] in q;
    }
    UniqueKeysBound(selected, QuickTemplateKey, {"1", "2"});
    if |selected| == 2 {
      assert QuickTemplateKey(selected[0]) != QuickTemplateKey(selected[1]);
      forall t | t in q ensures IsSelected(selected, t) {
        if selected[0].id == t.id {
          assert QuickTemplateKey(selected[0]) == t.id;
        } else {
          assert QuickTemplateKey(selected[1]) == t.id;
        }
      }
    }
    if forall t :: t in q ==> IsSelected(selected, t) {
      assert IsSelected(selected, q[0]) && IsSelected(selected, q[1]);
      var i :| 0 <= i < |selected| && QuickTemplateKey(selected[i]) == "1";
      var j :| 0 <= j < |selected| && QuickTemplateKey(selected[j]) == "2";
      assert i != j;
    }
  }
}
