/** JavaScript strings and the order in which `Array.prototype.sort` puts them
    when it is called without a comparator: element by element on UTF-16 code
    units, a proper prefix before any longer string. */
module JsText {

  /** One UTF-16 code unit; a JavaScript string is a sequence of them. */
  newtype CodeUnit = x: int | 0 <= x < 0x1_0000

  type JsString = seq<CodeUnit>

  /** `a <= b` as JavaScript compares two strings. */
  predicate LexLe(a: JsString, b: JsString)
  {
    if |a| == 0 then true
    else if |b| == 0 then false
    else if a[0] != b[0] then a[0] < b[0]
    else LexLe(a[1..], b[1..])
  }

  /** Sorted in the default sort order. */
  predicate Sorted(s: seq<JsString>)
  {
    forall i, j :: 0 <= i < j < |s| ==> LexLe(s[i], s[j])
  }

  lemma {:induction false} LexLeReflexive(a: JsString)
    ensures LexLe(a, a)
  {
    if |a| > 0 {
      LexLeReflexive(a[1..]);
    }
  }

  /** Any two strings are comparable. */
  lemma {:induction false} LexLeTotal(a: JsString, b: JsString)
    ensures LexLe(a, b) || LexLe(b, a)
  {
    if |a| > 0 && |b| > 0 && a[0] == b[0] {
      LexLeTotal(a[1..], b[1..]);
    }
  }

  lemma {:induction false} LexLeTransitive(a: JsString, b: JsString, c: JsString)
    requires LexLe(a, b) && LexLe(b, c)
    ensures LexLe(a, c)
  {
    if |a| > 0 && |b| > 0 && |c| > 0 && a[0] == b[0] && b[0] == c[0] {
      LexLeTransitive(a[1..], b[1..], c[1..]);
    }
  }

  /** Two strings that compare equal are the same string, so the sort never
      has to break a tie between different elements. */
  lemma {:induction false} LexLeAntisymmetric(a: JsString, b: JsString)
    requires LexLe(a, b) && LexLe(b, a)
    ensures a == b
  {
    if |a| > 0 && |b| > 0 {
      LexLeAntisymmetric(a[1..], b[1..]);
      assert a == [a[0]] + a[1..] && b == [b[0]] + b[1..];
    }
  }

  /** Putting the same folder in front of two names does not change their order. */
  lemma {:induction false} LexLeCommonPrefix(f: JsString, a: JsString, b: JsString)
    ensures LexLe(f + a, f + b) == LexLe(a, b)
  {
    if |f| > 0 {
      assert (f + a)[1..] == f[1..] + a;
      assert (f + b)[1..] == f[1..] + b;
      LexLeCommonPrefix(f[1..], a, b);
    } else {
      assert f + a == a && f + b == b;
    }
  }

  /** Inserts `x` before the first element it does not exceed. */
  function Insert(x: JsString, s: seq<JsString>): (r: seq<JsString>)
    ensures |r| == |s| + 1
    ensures multiset(r) == multiset(s) + multiset{x}
  {
    if s == [] then [x]
    else if LexLe(x, s[0]) then [x] + s
    else
      assert s == [s[0]] + s[1..];
      [s[0]] + Insert(x, s[1..])
  }

  /** A reference sort: insertion sort on sequences. */
  function Sort(s: seq<JsString>): (r: seq<JsString>)
    ensures |r| == |s|
    ensures multiset(r) == multiset(s)
  {
    if s == [] then []
    else
      assert s == [s[0]] + s[1..];
      Insert(s[0], Sort(s[1..]))
  }

  lemma {:induction false} InsertSorted(x: JsString, s: seq<JsString>)
    requires Sorted(s)
    ensures Sorted(Insert(x, s))
  {
    var r := Insert(x, s);
    if s == [] {
    } else if LexLe(x, s[0]) {
      forall i, j | 0 <= i < j < |r| ensures LexLe(r[i], r[j]) {
        if i == 0 && j > 1 {
          LexLeTransitive(x, s[0], s[j - 1]);
        }
      }
    } else {
      LexLeTotal(x, s[0]);
      var t := Insert(x, s[1..]);
      InsertSorted(x, s[1..]);
      assert r == [s[0]] + t;
      forall i, j | 0 <= i < j < |r| ensures LexLe(r[i], r[j]) {
        if i == 0 {
          assert r[j] in multiset(t);
          assert r[j] in multiset(s[1..]) || r[j] == x;
          if r[j] != x {
            var k :| 0 <= k < |s[1..]| && s[1..][k] == r[j];
            assert s[k + 1] == r[j];
          }
        }
      }
    }
  }

  /** The reference sort yields a sorted permutation of its input. */
  lemma {:induction false} SortSorted(s: seq<JsString>)
    ensures Sorted(Sort(s))
  {
    if s != [] {
      SortSorted(s[1..]);
      InsertSorted(s[0], Sort(s[1..]));
    }
  }

  lemma MultisetOfTail(s: seq<JsString>)
    requires s != []
    ensures multiset(s[1..]) == multiset(s) - multiset{s[0]}
  {
    assert s == [s[0]] + s[1..];
  }

  /** The first element of a sorted sequence is at most every element of it. */
  lemma HeadIsLeast(s: seq<JsString>, x: JsString)
    requires Sorted(s) && x in multiset(s)
    ensures LexLe(s[0], x)
  {
    var i :| 0 <= i < |s| && s[i] == x;
    if i == 0 { LexLeReflexive(x); }
  }

  /** A sorted permutation is unique: whatever algorithm an engine uses for
      `Array.prototype.sort`, the result equals `Sort` of the input. */
  lemma {:induction false} SortedPermutationUnique(s: seq<JsString>, t: seq<JsString>)
    requires Sorted(s) && Sorted(t)
    requires multiset(s) == multiset(t)
    ensures s == t
  {
    if s == [] {
      assert |multiset(t)| == 0;
    } else {
      assert |multiset(t)| == |s|;
      assert s[0] in multiset(s) && t[0] in multiset(t);
      HeadIsLeast(t, s[0]);
      HeadIsLeast(s, t[0]);
      LexLeAntisymmetric(s[0], t[0]);
      MultisetOfTail(s);
      MultisetOfTail(t);
      SortedPermutationUnique(s[1..], t[1..]);
      assert s == [s[0]] + s[1..] && t == [t[0]] + t[1..];
    }
  }
}
