/** The JavaScript string operations the pages rely on: `toLowerCase` (on the ASCII letters),
    `includes`, `split` on one character, and `localeCompare` (as lexicographic order on
    character codes). */
module Text {

  function LowerChar(c: char): char
  {
    if 'A' <= c <= 'Z' then (c as int + 32) as char else c
  }

  /** `s.toLowerCase()`, restricted to ASCII letters. */
  function Lower(s: string): (r: string)
  {
    seq(|s|, i requires 0 <= i < |s| => LowerChar(s[i]))
  }

  predicate IsLower(s: string)
  {
    forall i :: 0 <= i < |s| ==> !('A' <= s[i] <= 'Z')
  }

  /** Lowering a string without upper-case letters is the identity. */
  lemma LowerOfLower(s: string)
    requires IsLower(s)
    ensures Lower(s) == s
  {
  }

  /** A lowered string has no upper-case letter, and lowering it again changes nothing. */
  lemma LowerIsLower(s: string)
    ensures IsLower(Lower(s))
    ensures Lower(Lower(s)) == Lower(s)
  {
    LowerOfLower(Lower(s));
  }

  /** Lowering works character by character, so it distributes over concatenation. */
  lemma LowerAppend(a: string, b: string)
    ensures Lower(a + b) == Lower(a) + Lower(b)
  {
  }

  /** `s` occurs in `text` at position `i`. */
  predicate OccursAt(text: string, s: string, i: int)
  {
    0 <= i && i + |s| <= |text| && text[i..i + |s|] == s
  }

  /** `text.includes(s)`, computed by trying each position in turn. */
  function Contains(text: string, s: string): bool
    decreases |text|
  {
    if |s| > |text| then false
    else if text[..|s|] == s then true
    else Contains(text[1..], s)
  }

  /** `Contains` holds exactly when `s` occurs in `text` at some position. */
  lemma {:induction false} ContainsIff(text: string, s: string)
    ensures Contains(text, s) <==> exists i :: OccursAt(text, s, i)
    decreases |text|
  {
    if |s| > |text| {
      assert forall i :: !OccursAt(text, s, i);
    } else if text[..|s|] == s {
      assert OccursAt(text, s, 0);
    } else {
      ContainsIff(text[1..], s);
      if Contains(text[1..], s) {
        var i :| OccursAt(text[1..], s, i);
        assert text[i + 1..i + 1 + |s|] == text[1..][i..i + |s|];
        assert OccursAt(text, s, i + 1);
      } else {
        forall i | OccursAt(text, s, i) ensures false {
          if i != 0 {
            assert text[1..][i - 1..i - 1 + |s|] == text[i..i + |s|];
            assert OccursAt(text[1..], s, i - 1);
          }
        }
      }
    }
  }

  /** Every string includes the empty string. */
  lemma ContainsEmpty(text: string)
    ensures Contains(text, "")
  {
    ContainsIff(text, "");
    assert OccursAt(text, "", 0);
  }

  /** A string is included in any string that has it as a middle part. */
  lemma ContainsMiddle(a: string, b: string, c: string)
    ensures Contains(a + b + c, b)
  {
    var t := a + b + c;
    assert t[|a|..|a| + |b|] == b;
    assert OccursAt(t, b, |a|);
    ContainsIff(t, b);
  }

  /** `s.indexOf(c)` for a character that occurs: the position of its first occurrence. */
  function IndexOf(s: string, c: char): (i: nat)
    requires c in s
    ensures i < |s| && s[i] == c && c !in s[..i]
  {
    if s[0] == c then 0
    else
      assert c in s[1..];
      var j := IndexOf(s[1..], c);
      assert s[..j + 1] == [s[0]] + s[1..][..j];
      j + 1
  }

  /** `s.split(sep)`: the pieces between the separators; never empty, so `"".split(sep) == [""]`. */
  function Split(s: string, sep: char): (r: seq<string>)
    ensures |r| >= 1
    ensures forall i :: 0 <= i < |r| ==> sep !in r[i]
    decreases |s|
  {
    if sep !in s then [s]
    else
      var i := IndexOf(s, sep);
      [s[..i]] + Split(s[i + 1..], sep)
  }

  /** `pieces.join(sep)`. */
  function Join(pieces: seq<string>, sep: char): string
    requires |pieces| >= 1
  {
    if |pieces| == 1 then pieces[0] else pieces[0] + [sep] + Join(pieces[1..], sep)
  }

  /** Splitting loses nothing: joining the pieces with the separator gives the string back. */
  lemma {:induction false} JoinSplit(s: string, sep: char)
    ensures Join(Split(s, sep), sep) == s
    decreases |s|
  {
    if sep in s {
      var i := IndexOf(s, sep);
      JoinSplit(s[i + 1..], sep);
      var r := Split(s, sep);
      assert r[1..] == Split(s[i + 1..], sep);
      assert s == s[..i] + [sep] + s[i + 1..];
    }
  }

  /** Splitting at the first separator: the part before it is the first piece. */
  lemma SplitAtFirstSeparator(x: string, y: string, sep: char)
    requires sep !in x
    ensures Split(x + [sep] + y, sep) == [x] + Split(y, sep)
  {
    var s := x + [sep] + y;
    assert s[|x|] == sep;
    assert s[..|x|] == x && s[|x| + 1..] == y;
  }

  /** `a.localeCompare(b)`, as lexicographic order on character codes: -1, 0 or 1. */
  function LocaleCompare(a: string, b: string): int
  {
    if a == [] && b == [] then 0
    else if a == [] then -1
    else if b == [] then 1
    else if a[0] < b[0] then -1
    else if a[0] > b[0] then 1
    else LocaleCompare(a[1..], b[1..])
  }

  /** Only equal strings compare equal, and swapping the arguments negates the result. */
  lemma {:induction false} LocaleCompareProperties(a: string, b: string)
    ensures -1 <= LocaleCompare(a, b) <= 1
    ensures LocaleCompare(a, b) == 0 <==> a == b
    ensures LocaleCompare(b, a) == -LocaleCompare(a, b)
  {
    if a != [] && b != [] && a[0] == b[0] {
      LocaleCompareProperties(a[1..], b[1..]);
      if a[1..] == b[1..] {
        assert a == [a[0]] + a[1..] && b == [b[0]] + b[1..];
      }
    }
  }

  /** "Comes no later than" is transitive. */
  lemma {:induction false} LocaleCompareTransitive(a: string, b: string, c: string)
    requires LocaleCompare(a, b) <= 0 && LocaleCompare(b, c) <= 0
    ensures LocaleCompare(a, c) <= 0
  {
    if a != [] && b != [] && c != [] && a[0] == b[0] && b[0] == c[0] {
      LocaleCompareTransitive(a[1..], b[1..], c[1..]);
    }
  }
}
