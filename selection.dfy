/** The checkbox toggle shared by the recipient picker, the payment approval table and the
    quick-entry table: when some selected entry has the clicked entry's key, every entry with
    that key is filtered out; otherwise the clicked entry is appended. */
module Selection {
  import opened Seqs

  /** `sel.some(e => key(e) === k)` (for plain id lists, `sel.includes(k)`). */
  predicate HasKey<T>(sel: seq<T>, key: T -> string, k: string)
  {
    exists i :: 0 <= i < |sel| && key(sel[i]) == k
  }

  /** The filter predicate `e => key(e) !== k`. */
  function KeyDiffers<T>(key: T -> string, k: string): T -> bool
  {
    e => key(e) != k
  }

  /** No two entries share a key. */
  predicate UniqueKeys<T>(sel: seq<T>, key: T -> string)
  {
    forall i, j :: 0 <= i < j < |sel| ==> key(sel[i]) != key(sel[j])
  }

  function ToggleBy<T>(sel: seq<T>, x: T, key: T -> string): seq<T>
  {
    if HasKey(sel, key, key(x)) then Filter(sel, KeyDiffers(key, key(x))) else sel + [x]
  }

  /** After a toggle the clicked key is selected exactly when it was not selected before,
      and every other key is selected exactly when it was before. */
  lemma ToggleFlipsOnlyThatKey<T>(sel: seq<T>, x: T, key: T -> string, k: string)
    ensures HasKey(ToggleBy(sel, x, key), key, k) <==>
      (if k == key(x) then !HasKey(sel, key, k) else HasKey(sel, key, k))
  {
    var r := ToggleBy(sel, x, key);
    if HasKey(sel, key, key(x)) {
      if k != key(x) && HasKey(sel, key, k) {
        var i :| 0 <= i < |sel| && key(sel[i]) == k;
        assert KeyDiffers(key, key(x))(sel[i]);
        var j :| 0 <= j < |r| && r[j] == sel[i];
        assert key(r[j]) == k;
      }
    } else {
      if HasKey(sel, key, k) {
        var i :| 0 <= i < |sel| && key(sel[i]) == k;
        assert r[i] == sel[i];
      }
      assert r[|sel|] == x;
      if HasKey(r, key, k) && k != key(x) {
        var i :| 0 <= i < |r| && key(r[i]) == k;
        assert i < |sel| && r[i] == sel[i];
      }
    }
  }

  /** Clicking an unselected entry twice restores the selection exactly. */
  lemma ToggleTwiceFromUnselected<T>(sel: seq<T>, x: T, key: T -> string)
    requires !HasKey(sel, key, key(x))
    ensures ToggleBy(ToggleBy(sel, x, key), x, key) == sel
  {
    var once := sel + [x];
    assert once[|sel|] == x;
    assert HasKey(once, key, key(x));
    FilterAppend(sel, [x], KeyDiffers(key, key(x)));
    FilterAll(sel, KeyDiffers(key, key(x)));
    assert Filter([x], KeyDiffers(key, key(x))) == [];
  }

  /** Clicking a selected entry twice moves that one entry to the end: the entries with other
      keys keep their order in front of it. */
  lemma ToggleTwiceFromSelected<T>(sel: seq<T>, x: T, key: T -> string)
    requires HasKey(sel, key, key(x))
    ensures ToggleBy(ToggleBy(sel, x, key), x, key) == Filter(sel, KeyDiffers(key, key(x))) + [x]
  {
  }

  lemma {:induction false} FilterKeepsUniqueKeys<T>(sel: seq<T>, p: T -> bool, key: T -> string)
    requires UniqueKeys(sel, key)
    ensures UniqueKeys(Filter(sel, p), key)
  {
    if sel != [] {
      assert UniqueKeys(sel[1..], key) by {
        forall i, j | 0 <= i < j < |sel[1..]| ensures key(sel[1..][i]) != key(sel[1..][j]) {
          assert sel[1..][i] == sel[i + 1] && sel[1..][j] == sel[j + 1];
        }
      }
      FilterKeepsUniqueKeys(sel[1..], p, key);
      var rest := Filter(sel[1..], p);
      if p(sel[0]) {
        forall j | 0 <= j < |rest| ensures key(sel[0]) != key(rest[j]) {
          var m :| 0 <= m < |sel[1..]| && sel[1..][m] == rest[j];
          assert sel[m + 1] == rest[j];
        }
        var r := [sel[0]] + rest;
        forall i, j | 0 <= i < j < |r| ensures key(r[i]) != key(r[j]) {
          if i > 0 {
            assert r[i] == rest[i - 1] && r[j] == rest[j - 1];
          } else {
            assert r[j] == rest[j - 1];
          }
        }
      }
    }
  }

  /** A toggle never introduces two entries with the same key. */
  lemma ToggleKeepsUniqueKeys<T>(sel: seq<T>, x: T, key: T -> string)
    requires UniqueKeys(sel, key)
    ensures UniqueKeys(ToggleBy(sel, x, key), key)
  {
    if HasKey(sel, key, key(x)) {
      FilterKeepsUniqueKeys(sel, KeyDiffers(key, key(x)), key);
    } else {
      var r := sel + [x];
      forall i, j | 0 <= i < j < |r| ensures key(r[i]) != key(r[j]) {
        if j == |sel| {
          assert r[i] == sel[i];
        } else {
          assert r[i] == sel[i] && r[j] == sel[j];
        }
      }
    }
  }

  /** A selection without repeated keys, drawn from a set of keys, is no longer than that set. */
  lemma {:induction false} UniqueKeysBound<T>(sel: seq<T>, key: T -> string, keys: set<string>)
    requires UniqueKeys(sel, key)
    requires forall i :: 0 <= i < |sel| ==> key(sel[i]) in keys
    ensures |sel| <= |keys|
  {
    if sel != [] {
      var rest := sel[1..];
      var others := keys - {key(sel[0])};
      assert UniqueKeys(rest, key) by {
        forall i, j | 0 <= i < j < |rest| ensures key(rest[i]) != key(rest[j]) {
          assert rest[i] == sel[i + 1] && rest[j] == sel[j + 1];
        }
      }
      forall i | 0 <= i < |rest| ensures key(rest[i]) in others {
        assert rest[i] == sel[i + 1];
      }
      UniqueKeysBound(rest, key, others);
    }
  }
}
