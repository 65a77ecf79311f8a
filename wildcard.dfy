/** The name test of the template and recipient search handlers: an empty filter is no
    constraint; a lowered filter with a `*` is split on `*`, empty fragments are dropped and
    every fragment must occur in the lowered name, in any order; a filter without `*` must
    occur in the lowered name as it is. */
module WildcardSearch {
  import opened Seqs
  import opened Text

  function NonEmpty(): string -> bool
  {
    s => s != ""
  }

  /** `searchTerm.split('*').filter(part => part !== '')`. */
  function Fragments(term: string): (r: seq<string>)
    ensures forall i :: 0 <= i < |r| ==> r[i] != "" && '*' !in r[i]
  {
    Filter(Split(term, '*'), NonEmpty())
  }

  /** `parts.every(part => name.includes(part))`. */
  predicate AllOccur(name: string, parts: seq<string>)
  {
    forall i :: 0 <= i < |parts| ==> Contains(name, parts[i])
  }

  /** The branch structure of `handleSearch` for the name filter. */
  predicate NameMatches(name: string, filterName: string)
  {
    if filterName == "" then true
    else
      var searchTerm := Lower(filterName);
      if '*' in searchTerm then AllOccur(Lower(name), Fragments(searchTerm))
      else Contains(Lower(name), searchTerm)
  }

  /** Both branches are one rule: a name matches exactly when every non-empty `*`-fragment of
      the lowered filter occurs in the lowered name (the empty filter has no fragments). */
  lemma NameMatchesIffFragmentsOccur(name: string, filterName: string)
    ensures NameMatches(name, filterName) <==> AllOccur(Lower(name), Fragments(Lower(filterName)))
  {
    var term := Lower(filterName);
    if filterName == "" {
      assert term == "";
      assert Split(term, '*') == [""];
      assert Fragments(term) == [];
    } else if '*' !in term {
      assert Fragments(term) == Filter([term], NonEmpty());
      assert Fragments(term) == [term];
    }
  }

  /** The fragment order does not matter: filters with the same fragments, in any order and
      with any repetition, match the same names. */
  lemma FragmentOrderIrrelevant(name: string, f: string, g: string)
    requires forall x :: x in Fragments(Lower(f)) <==> x in Fragments(Lower(g))
    ensures NameMatches(name, f) <==> NameMatches(name, g)
  {
    NameMatchesIffFragmentsOccur(name, f);
    NameMatchesIffFragmentsOccur(name, g);
    var pf, pg := Fragments(Lower(f)), Fragments(Lower(g));
    if AllOccur(Lower(name), pf) {
      forall i | 0 <= i < |pg| ensures Contains(Lower(name), pg[i]) {
        assert pg[i] in pf;
      }
    }
    if AllOccur(Lower(name), pg) {
      forall i | 0 <= i < |pf| ensures Contains(Lower(name), pf[i]) {
        assert pf[i] in pg;
      }
    }
  }

  /** A lone `*` has no fragments, so it matches every name. */
  lemma StarMatchesEverything(name: string)
    ensures NameMatches(name, "*")
  {
    assert Lower("*") == "*";
    assert Split("*", '*') == [""] + Split("", '*');
    assert Fragments("*") == [];
  }

  /** `"a*b"`: a name matches exactly when it contains both fragments, whatever their order
      or overlap in the name. */
  lemma TwoFragments(name: string, a: string, b: string)
    requires a != "" && b != "" && '*' !in a && '*' !in b && IsLower(a) && IsLower(b)
    ensures NameMatches(name, a + "*" + b) <==> Contains(Lower(name), a) && Contains(Lower(name), b)
  {
    var f := a + "*" + b;
    assert IsLower(f) by {
      forall i | 0 <= i < |f| ensures !('A' <= f[i] <= 'Z') {
        if i < |a| { assert f[i] == a[i]; }
        else if i > |a| { assert f[i] == b[i - |a| - 1]; }
      }
    }
    LowerOfLower(f);
    assert f[|a|] == '*';
    SplitAtFirstSeparator(a, b, '*');
    assert Split(f, '*') == [a, b];
    assert [a, b][1..] == [b];
    assert Filter([b], NonEmpty()) == [b];
    assert Fragments(f) == [a] + Filter([b], NonEmpty());
  }

  /** A filter with exactly one fragment is a plain substring test for that fragment. */
  lemma OneFragment(name: string, filterName: string, part: string)
    requires Fragments(Lower(filterName)) == [part]
    ensures NameMatches(name, filterName) <==> Contains(Lower(name), part)
  {
    NameMatchesIffFragmentsOccur(name, filterName);
    assert AllOccur(Lower(name), [part]) <==> Contains(Lower(name), part) by {
      assert [part][0] == part;
    }
  }

  lemma FragmentsOfAbcStar()
    ensures Fragments(Lower("ABC*")) == ["abc"]
  {
    assert Lower("ABC*") == "abc*";
    assert "abc" + "*" + "" == "abc*";
    SplitAtFirstSeparator("abc", "", '*');
    assert Split("abc*", '*') == ["abc", ""];
  }

  /** A filter `*part` has the single fragment `part`. */
  lemma LeadingStar(part: string)
    requires part != "" && '*' !in part
    ensures Fragments("*" + part) == [part]
  {
    SplitAtFirstSeparator([], part, '*');
    assert [] + ['*'] + part == "*" + part;
    assert Split("*" + part, '*') == ["", part];
    assert ["", part][1..] == [part];
    assert Filter([part], NonEmpty()) == [part];
  }

  lemma FragmentsOfStarConstruction()
    ensures Fragments(Lower("*construction")) == ["construction"]
  {
    var term := "*construction";
    assert IsLower(term);
    LowerOfLower(term);
    LeadingStar("construction");
  }

  /** The help text's example: `ABC*` finds "ABC Company". */
  lemma HelpExampleAbcStar()
    ensures NameMatches("ABC Company", "ABC*")
  {
    FragmentsOfAbcStar();
    OneFragment("ABC Company", "ABC*", "abc");
    var name := "ABC Company";
    assert OccursAt(Lower(name), "abc", 0);
    ContainsIff(Lower(name), "abc");
  }

  /** The tooltip's filter `*construction` is a case-insensitive substring test. */
  lemma StarConstructionRule(name: string)
    ensures NameMatches(name, "*construction") <==> Contains(Lower(name), "construction")
  {
    FragmentsOfStarConstruction();
    OneFragment(name, "*construction", "construction");
  }

  /** The tooltip's example: `*construction` finds any name with "Construction" in it, such as
      "ABC Construction Management". */
  lemma TooltipExampleMatches(before: string, after: string)
    ensures NameMatches(before + "Construction" + after, "*construction")
  {
    var name := before + "Construction" + after;
    StarConstructionRule(name);
    LowerAppend(before + "Construction", after);
    LowerAppend(before, "Construction");
    assert Lower("Construction") == "construction";
    ContainsMiddle(Lower(before), "construction", Lower(after));
  }
}
