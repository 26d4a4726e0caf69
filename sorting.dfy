/** Python's stable `sorted`, in the two forms the model needs: by an integer key in
  * descending order (`reverse=True`), and strings in ascending code-point order. */
module Sorting {

  predicate SortedDesc<T>(s: seq<T>, key: T -> int) {
    forall i, j :: 0 <= i < j < |s| ==> key(s[i]) >= key(s[j])
  }

  /** Puts x in front of the first element whose key is smaller than x's,
    * so that x stays ahead of the equal keys that followed it. */
  function InsertDesc<T>(x: T, s: seq<T>, key: T -> int): seq<T>
  {
    if s == [] || key(x) >= key(s[0]) then [x] + s
    else [s[0]] + InsertDesc(x, s[1..], key)
  }

  lemma {:induction false} InsertDescPermutation<T>(x: T, s: seq<T>, key: T -> int)
    ensures multiset(InsertDesc(x, s, key)) == multiset(s) + multiset{x}
    ensures |InsertDesc(x, s, key)| == |s| + 1
  {
    if s != [] && key(x) < key(s[0]) {
      InsertDescPermutation(x, s[1..], key);
      assert s == [s[0]] + s[1..];
    }
  }

  lemma {:induction false} InsertDescSorted<T>(x: T, s: seq<T>, key: T -> int)
    requires SortedDesc(s, key)
    ensures SortedDesc(InsertDesc(x, s, key), key)
    ensures forall i :: 0 <= i < |InsertDesc(x, s, key)| ==>
      key(InsertDesc(x, s, key)[i]) == key(x) || exists j :: 0 <= j < |s| && key(InsertDesc(x, s, key)[i]) == key(s[j])
  {
    if s != [] && key(x) < key(s[0]) {
      var t := InsertDesc(x, s[1..], key);
      InsertDescSorted(x, s[1..], key);
      InsertDescPermutation(x, s[1..], key);
      var r := [s[0]] + t;
      forall i | 0 <= i < |r| ensures key(r[i]) == key(x) || exists j :: 0 <= j < |s| && key(r[i]) == key(s[j]) {
        if i == 0 { assert key(r[i]) == key(s[0]); }
        else if key(t[i - 1]) != key(x) {
          var j :| 0 <= j < |s[1..]| && key(t[i - 1]) == key(s[1..][j]);
          assert key(r[i]) == key(s[j + 1]);
        }
      }
      forall i, j | 0 <= i < j < |r| ensures key(r[i]) >= key(r[j]) {
        if i == 0 {
          if key(r[j]) != key(x) {
            var m :| 0 <= m < |s[1..]| && key(t[j - 1]) == key(s[1..][m]);
            assert key(r[j]) == key(s[m + 1]);
          }
        }
      }
    }
  }

  /** `sorted(s, key=key, reverse=True)`. */
  function SortDesc<T>(s: seq<T>, key: T -> int): seq<T>
  {
    if s == [] then [] else InsertDesc(s[0], SortDesc(s[1..], key), key)
  }

  /** The sorted sequence is a permutation of the input. */
  lemma {:induction false} SortDescPermutation<T>(s: seq<T>, key: T -> int)
    ensures multiset(SortDesc(s, key)) == multiset(s) && |SortDesc(s, key)| == |s|
  {
    if s != [] {
      SortDescPermutation(s[1..], key);
      InsertDescPermutation(s[0], SortDesc(s[1..], key), key);
      assert s == [s[0]] + s[1..];
    }
  }

  lemma SortedDescTail<T>(s: seq<T>, key: T -> int)
    requires SortedDesc(s, key) && s != []
    ensures SortedDesc(s[1..], key)
  {
    forall i, j | 0 <= i < j < |s[1..]| ensures key(s[1..][i]) >= key(s[1..][j]) {
      assert s[1..][i] == s[i + 1] && s[1..][j] == s[j + 1];
    }
  }

  /** Sorting what is already sorted changes nothing. */
  lemma {:induction false} SortDescOfSorted<T>(s: seq<T>, key: T -> int)
    requires SortedDesc(s, key)
    ensures SortDesc(s, key) == s
  {
    if s != [] {
      SortedDescTail(s, key);
      SortDescOfSorted(s[1..], key);
      assert s == [s[0]] + s[1..];
    }
  }

  lemma {:induction false} SortDescSorted<T>(s: seq<T>, key: T -> int)
    ensures SortedDesc(SortDesc(s, key), key)
  {
    if s != [] {
      SortDescSorted(s[1..], key);
      InsertDescSorted(s[0], SortDesc(s[1..], key), key);
    }
  }

  /** Python's `<=` on strings: lexicographic on code points. */
  predicate StringLe(a: string, b: string) {
    a == [] || (b != [] && (a[0] < b[0] || (a[0] == b[0] && StringLe(a[1..], b[1..]))))
  }

  lemma {:induction false} StringLeTotal(a: string, b: string)
    ensures StringLe(a, b) || StringLe(b, a)
  {
    if a != [] && b != [] && a[0] == b[0] { StringLeTotal(a[1..], b[1..]); }
  }

  lemma {:induction false} StringLeTrans(a: string, b: string, c: string)
    requires StringLe(a, b) && StringLe(b, c)
    ensures StringLe(a, c)
  {
    if a != [] && b != [] && c != [] && a[0] == b[0] && b[0] == c[0] { StringLeTrans(a[1..], b[1..], c[1..]); }
  }

  predicate SortedStrings(s: seq<string>) {
    forall i, j :: 0 <= i < j < |s| ==> StringLe(s[i], s[j])
  }

  function InsertString(x: string, s: seq<string>): seq<string>
  {
    if s == [] || StringLe(x, s[0]) then [x] + s
    else [s[0]] + InsertString(x, s[1..])
  }

  lemma {:induction false} InsertStringPermutation(x: string, s: seq<string>)
    ensures multiset(InsertString(x, s)) == multiset(s) + multiset{x}
    ensures |InsertString(x, s)| == |s| + 1
  {
    if s != [] && !StringLe(x, s[0]) {
      InsertStringPermutation(x, s[1..]);
      assert s == [s[0]] + s[1..];
    }
  }

  /** Inserting x behind s[0] keeps s[0] ahead of everything, when s is sorted and x is larger. */
  lemma InsertStringHead(x: string, s: seq<string>)
    requires SortedStrings(s) && s != [] && StringLe(s[0], x)
    ensures forall j :: 0 <= j < |InsertString(x, s[1..])| ==> StringLe(s[0], InsertString(x, s[1..])[j])
  {
    var t := InsertString(x, s[1..]);
    InsertStringPermutation(x, s[1..]);
    forall j | 0 <= j < |t| ensures StringLe(s[0], t[j]) {
      assert t[j] in multiset(t);
      if t[j] != x {
        assert t[j] in multiset(s[1..]);
        var m :| 0 <= m < |s[1..]| && s[1..][m] == t[j];
        assert s[m + 1] == t[j];
      }
    }
  }

  lemma {:induction false} InsertStringSorted(x: string, s: seq<string>)
    requires SortedStrings(s)
    ensures SortedStrings(InsertString(x, s))
  {
    if s != [] && !StringLe(x, s[0]) {
      assert SortedStrings(s[1..]) by {
        forall i, j | 0 <= i < j < |s[1..]| ensures StringLe(s[1..][i], s[1..][j]) {
          assert s[1..][i] == s[i + 1] && s[1..][j] == s[j + 1];
        }
      }
      var t := InsertString(x, s[1..]);
      assert SortedStrings(t) by { InsertStringSorted(x, s[1..]); }
      assert forall j :: 0 <= j < |t| ==> StringLe(s[0], t[j]) by {
        StringLeTotal(x, s[0]);
        InsertStringHead(x, s);
      }
      var r := [s[0]] + t;
      forall i, j | 0 <= i < j < |r| ensures StringLe(r[i], r[j]) {
        assert r[j] == t[j - 1];
        if i > 0 { assert r[i] == t[i - 1]; }
      }
      assert InsertString(x, s) == r;
    } else if s != [] {
      var r := [x] + s;
      forall i, j | 0 <= i < j < |r| ensures StringLe(r[i], r[j]) {
        assert r[j] == s[j - 1];
        if i > 0 { assert r[i] == s[i - 1]; }
        else if j > 1 { StringLeTrans(x, s[0], s[j - 1]); }
      }
    }
  }

  /** `sorted(s)` for strings. */
  function SortStrings(s: seq<string>): seq<string>
  {
    if s == [] then [] else InsertString(s[0], SortStrings(s[1..]))
  }

  lemma {:induction false} SortStringsPermutation(s: seq<string>)
    ensures multiset(SortStrings(s)) == multiset(s) && |SortStrings(s)| == |s|
  {
    if s != [] {
      SortStringsPermutation(s[1..]);
      InsertStringPermutation(s[0], SortStrings(s[1..]));
      assert s == [s[0]] + s[1..];
    }
  }

  lemma {:induction false} SortStringsSorted(s: seq<string>)
    ensures SortedStrings(SortStrings(s))
  {
    if s != [] {
      SortStringsSorted(s[1..]);
      InsertStringSorted(s[0], SortStrings(s[1..]));
    }
  }
}
