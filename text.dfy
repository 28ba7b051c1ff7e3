/** The text operations the SQL reads rely on: Postgres's ILIKE with the `%query%`
    pattern every search builds, and the order ORDER BY puts text keys in. */
module Text {

  /** ASCII case folding, the part of ILIKE's folding this model covers. */
  function LowerChar(c: char): char
  {
    if 'A' <= c <= 'Z' then (c as int + 32) as char else c
  }

  function Lower(s: string): (r: string)
    ensures |r| == |s|
    ensures forall i :: 0 <= i < |s| ==> r[i] == LowerChar(s[i])
  {
    if s == [] then [] else [LowerChar(s[0])] + Lower(s[1..])
  }

  /** `s LIKE p`: `%` matches any run of characters, `_` any one character,
      every other pattern character itself. */
  predicate Like(p: string, s: string)
    decreases |p| + |s|
  {
    if p == [] then s == []
    else if p[0] == '%' then Like(p[1..], s) || (s != [] && Like(p, s[1..]))
    else s != [] && (p[0] == '_' || p[0] == s[0]) && Like(p[1..], s[1..])
  }

  /** `s ILIKE p`: LIKE once both sides are folded to lower case. */
  predicate ILike(s: string, p: string)
  {
    Like(Lower(p), Lower(s))
  }

  /** The pattern `%${query}%` that each search of the data layer binds. */
  function ContainsPattern(q: string): string
  {
    "%" + q + "%"
  }

  /** A query in which LIKE sees no wildcard and no escape character. */
  predicate NoWildcards(q: string)
  {
    forall i :: 0 <= i < |q| ==> q[i] != '%' && q[i] != '_' && q[i] != '\\'
  }

  /** `q` occurs in `s` starting at position `i`. */
  predicate OccursAt(q: string, s: string, i: int)
  {
    0 <= i && i + |q| <= |s| && s[i..i + |q|] == q
  }

  /** `q` occurs in `s` as a contiguous piece. */
  predicate OccursIn(q: string, s: string)
  {
    exists i | 0 <= i <= |s| :: OccursAt(q, s, i)
  }

  lemma {:induction false} StarMatchesAll(s: string)
    ensures Like("%", s)
  {
    assert "%"[1..] == [];
    if s != [] {
      StarMatchesAll(s[1..]);
    }
  }

  /** A leading `%` lets the rest of the pattern start at any position. */
  lemma {:induction false} LeadingStar(t: string, s: string)
    ensures Like("%" + t, s) <==> exists i :: 0 <= i <= |s| && Like(t, s[i..])
  {
    var p := "%" + t;
    assert p[0] == '%' && p[1..] == t;
    assert s[0..] == s;
    if s != [] {
      LeadingStar(t, s[1..]);
      if Like(p, s) && !Like(t, s) {
        var i :| 0 <= i <= |s| - 1 && Like(t, s[1..][i..]);
        assert s[1..][i..] == s[i + 1..];
      }
      if i :| 0 <= i <= |s| && Like(t, s[i..]) {
        if i > 0 {
          assert s[1..][i - 1..] == s[i..];
        }
      }
    }
  }

  /** A wildcard-free `q` followed by `%` matches exactly the texts that start with `q`. */
  lemma {:induction false} LiteralThenStar(q: string, s: string)
    requires NoWildcards(q)
    ensures Like(q + "%", s) <==> |q| <= |s| && s[..|q|] == q
  {
    if q == [] {
      assert q + "%" == "%";
      StarMatchesAll(s);
    } else {
      var p := q + "%";
      assert p[0] == q[0] && p[1..] == q[1..] + "%";
      assert q[0] != '%' && q[0] != '_';
      if s != [] {
        LiteralThenStar(q[1..], s[1..]);
        if |q| <= |s| && s[..|q|] == q {
          assert s[1..][..|q| - 1] == q[1..];
        }
        if s[0] == q[0] && |q| - 1 <= |s| - 1 && s[1..][..|q| - 1] == q[1..] {
          assert s[..|q|] == [s[0]] + s[1..][..|q| - 1];
        }
      }
    }
  }

  /** `%q%` is substring search when `q` holds no wildcard. */
  lemma ContainsPatternIsSubstring(q: string, s: string)
    requires NoWildcards(q)
    ensures Like(ContainsPattern(q), s) <==> OccursIn(q, s)
  {
    assert ContainsPattern(q) == "%" + (q + "%");
    LeadingStar(q + "%", s);
    forall i | 0 <= i <= |s|
      ensures Like(q + "%", s[i..]) <==> OccursAt(q, s, i)
    {
      LiteralThenStar(q, s[i..]);
      if i + |q| <= |s| {
        assert s[i..][..|q|] == s[i..i + |q|];
      }
    }
    if OccursIn(q, s) {
      var i :| 0 <= i <= |s| && OccursAt(q, s, i);
      assert Like(q + "%", s[i..]);
    }
    if Like(ContainsPattern(q), s) {
      var i :| 0 <= i <= |s| && Like(q + "%", s[i..]);
      assert OccursAt(q, s, i);
    }
  }

  /** Folding case leaves the `%` around the query in place and adds no wildcard. */
  lemma LowerContainsPattern(q: string)
    ensures Lower(ContainsPattern(q)) == ContainsPattern(Lower(q))
    ensures NoWildcards(q) ==> NoWildcards(Lower(q))
  {
    var a, b := Lower(ContainsPattern(q)), ContainsPattern(Lower(q));
    assert |a| == |b|;
    forall i | 0 <= i < |a| ensures a[i] == b[i] {
      if 0 < i < |a| - 1 {
        assert ContainsPattern(q)[i] == q[i - 1];
      }
    }
  }

  /** Searching with `%q%` under ILIKE finds the texts that contain `q`, ignoring case. */
  lemma ILikeIsCaseInsensitiveSubstring(q: string, s: string)
    requires NoWildcards(q)
    ensures ILike(s, ContainsPattern(q)) <==> OccursIn(Lower(q), Lower(s))
  {
    LowerContainsPattern(q);
    ContainsPatternIsSubstring(Lower(q), Lower(s));
  }

  /** An empty search box matches every text. */
  lemma EmptyQueryMatchesAll(s: string)
    ensures ILike(s, ContainsPattern(""))
  {
    assert Lower(ContainsPattern("")) == "%" + "%";
    LeadingStar("%", Lower(s));
    StarMatchesAll(Lower(s));
    assert Lower(s)[0..] == Lower(s);
  }

  /** Code-point lexicographic order, the order ORDER BY gives text keys. */
  predicate StrLe(a: string, b: string)
  {
    a == [] || (b != [] && (a[0] < b[0] || (a[0] == b[0] && StrLe(a[1..], b[1..]))))
  }

  lemma {:induction false} StrLeTotal(a: string, b: string)
    ensures StrLe(a, b) || StrLe(b, a)
  {
    if a != [] && b != [] && a[0] == b[0] {
      StrLeTotal(a[1..], b[1..]);
    }
  }

  lemma {:induction false} StrLeTransitive(a: string, b: string, c: string)
    requires StrLe(a, b) && StrLe(b, c)
    ensures StrLe(a, c)
  {
    if a != [] && a[0] == b[0] && b[0] == c[0] {
      StrLeTransitive(a[1..], b[1..], c[1..]);
    }
  }
}
