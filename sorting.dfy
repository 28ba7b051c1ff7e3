/** ORDER BY on a text key, as an insertion sort whose result is proved ordered and
    a permutation of its input. Postgres leaves the order of equal keys open; this
    sort keeps them in input order, which is one of the orders it may produce. */
module Sorting {
  import opened Text

  /** `a` may precede `b` under ORDER BY ... ASC (`desc` false) or DESC (`desc` true). */
  predicate InOrder(a: string, b: string, desc: bool)
  {
    if desc then StrLe(b, a) else StrLe(a, b)
  }

  predicate SortedBy<T>(s: seq<T>, key: T -> string, desc: bool)
  {
    forall i, j :: 0 <= i < j < |s| ==> InOrder(key(s[i]), key(s[j]), desc)
  }

  function Insert<T>(x: T, s: seq<T>, key: T -> string, desc: bool): seq<T>
  {
    if s == [] || InOrder(key(x), key(s[0]), desc) then [x] + s
    else [s[0]] + Insert(x, s[1..], key, desc)
  }

  function SortBy<T>(s: seq<T>, key: T -> string, desc: bool): seq<T>
  {
    if s == [] then [] else Insert(s[0], SortBy(s[1..], key, desc), key, desc)
  }

  lemma InOrderTotal(a: string, b: string, desc: bool)
    ensures InOrder(a, b, desc) || InOrder(b, a, desc)
  {
    StrLeTotal(a, b);
  }

  lemma InOrderTransitive(a: string, b: string, c: string, desc: bool)
    requires InOrder(a, b, desc) && InOrder(b, c, desc)
    ensures InOrder(a, c, desc)
  {
    if desc { StrLeTransitive(c, b, a); } else { StrLeTransitive(a, b, c); }
  }

  lemma {:induction false} InsertPermutes<T>(x: T, s: seq<T>, key: T -> string, desc: bool)
    ensures multiset(Insert(x, s, key, desc)) == multiset(s) + multiset{x}
  {
    if s != [] && !InOrder(key(x), key(s[0]), desc) {
      InsertPermutes(x, s[1..], key, desc);
      assert s == [s[0]] + s[1..];
    }
  }

  lemma {:induction false} InsertSorted<T>(x: T, s: seq<T>, key: T -> string, desc: bool)
    requires SortedBy(s, key, desc)
    ensures SortedBy(Insert(x, s, key, desc), key, desc)
  {
    var r := Insert(x, s, key, desc);
    if s == [] {
    } else if InOrder(key(x), key(s[0]), desc) {
      forall j | 0 < j < |r| ensures InOrder(key(x), key(r[j]), desc) {
        if j > 1 { InOrderTransitive(key(x), key(s[0]), key(s[j - 1]), desc); }
      }
    } else {
      var t := Insert(x, s[1..], key, desc);
      InsertSorted(x, s[1..], key, desc);
      InsertPermutes(x, s[1..], key, desc);
      InOrderTotal(key(x), key(s[0]), desc);
      forall j | 0 <= j < |t| ensures InOrder(key(s[0]), key(t[j]), desc) {
        assert t[j] in multiset(t);
        if t[j] != x {
          assert t[j] in multiset(s[1..]);
          var k :| 0 <= k < |s[1..]| && s[1..][k] == t[j];
          assert s[k + 1] == t[j];
        }
      }
      assert r == [s[0]] + t;
    }
  }

  /** The sort returns its input rearranged in ORDER BY order. */
  lemma {:induction false} SortByCorrect<T>(s: seq<T>, key: T -> string, desc: bool)
    ensures SortedBy(SortBy(s, key, desc), key, desc)
    ensures multiset(SortBy(s, key, desc)) == multiset(s)
  {
    if s != [] {
      SortByCorrect(s[1..], key, desc);
      InsertSorted(s[0], SortBy(s[1..], key, desc), key, desc);
      InsertPermutes(s[0], SortBy(s[1..], key, desc), key, desc);
      assert s == [s[0]] + s[1..];
    }
  }

  /** Sorting keeps the number of rows. */
  lemma SortByLength<T>(s: seq<T>, key: T -> string, desc: bool)
    ensures |SortBy(s, key, desc)| == |s|
  {
    SortByCorrect(s, key, desc);
    assert |multiset(SortBy(s, key, desc))| == |multiset(s)|;
  }
}
