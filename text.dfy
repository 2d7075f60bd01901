/**
  String helpers shared by the data model: the code-point order Python's
  `sorted` uses on strings, the sorted listing of a set of keys, `str.join`
  and ASCII `str.lower`.
 */
module Text {

  /** Python's `a < b` on strings: lexicographic by code point, a proper prefix first. */
  predicate Less(a: string, b: string)
  {
    if a == [] then b != []
    else if b == [] then false
    else if a[0] != b[0] then a[0] < b[0]
    else Less(a[1..], b[1..])
  }

  lemma {:induction false} LessIrreflexive(a: string)
    ensures !Less(a, a)
  {
    if a != [] {
      LessIrreflexive(a[1..]);
    }
  }

  lemma {:induction false} LessAsymmetric(a: string, b: string)
    ensures !(Less(a, b) && Less(b, a))
  {
    if a != [] && b != [] && a[0] == b[0] {
      LessAsymmetric(a[1..], b[1..]);
    }
  }

  lemma {:induction false} LessTransitive(a: string, b: string, c: string)
    requires Less(a, b) && Less(b, c)
    ensures Less(a, c)
  {
    if a != [] && b != [] && c != [] && a[0] == b[0] && b[0] == c[0] {
      LessTransitive(a[1..], b[1..], c[1..]);
    }
  }

  lemma {:induction false} LessTotal(a: string, b: string)
    requires a != b
    ensures Less(a, b) || Less(b, a)
  {
    if a != [] && b != [] && a[0] == b[0] {
      assert a == [a[0]] + a[1..] && b == [b[0]] + b[1..];
      LessTotal(a[1..], b[1..]);
    }
  }

  /** `m` comes before every other element of `s`. */
  predicate IsLeast(m: string, s: set<string>)
  {
    m in s && forall y :: y in s && y != m ==> Less(m, y)
  }

  lemma {:induction false} LeastExists(s: set<string>)
    requires s != {}
    ensures exists m :: IsLeast(m, s)
    decreases |s|
  {
    var x :| x in s;
    var rest := s - {x};
    if rest == {} {
      assert s == {x};
      assert IsLeast(x, s);
    } else {
      LeastExists(rest);
      var m :| IsLeast(m, rest);
      if Less(x, m) {
        forall y | y in s && y != x
          ensures Less(x, y)
        {
          if y != m {
            LessTransitive(x, m, y);
          }
        }
        assert IsLeast(x, s);
      } else {
        LessTotal(x, m);
        assert IsLeast(m, s);
      }
    }
  }

  lemma LeastUnique(s: set<string>)
    ensures forall m1, m2 :: IsLeast(m1, s) && IsLeast(m2, s) ==> m1 == m2
  {
    forall m1, m2 | IsLeast(m1, s) && IsLeast(m2, s)
      ensures m1 == m2
    {
      LessAsymmetric(m1, m2);
    }
  }

  /** Every earlier element is strictly before every later one. */
  predicate StrictlySorted(r: seq<string>)
  {
    forall i, j :: 0 <= i < j < |r| ==> Less(r[i], r[j])
  }

  /** The keys of `s` in ascending order, as `sorted(s)` lists them. */
  function SortedKeys(s: set<string>): (r: seq<string>)
    ensures |r| == |s|
    ensures forall k :: k in r <==> k in s
    ensures StrictlySorted(r)
    decreases |s|
  {
    if s == {} then []
    else
      LeastExists(s);
      LeastUnique(s);
      var m :| IsLeast(m, s);
      [m] + SortedKeys(s - {m})
  }

  /** A strictly sorted listing of a set is unique: whatever order the keys arrive in, sorting yields one sequence. */
  lemma {:induction false} SortedUnique(a: seq<string>, b: seq<string>)
    requires StrictlySorted(a) && StrictlySorted(b)
    requires forall k :: k in a <==> k in b
    ensures a == b
  {
    assert a != [] ==> a[0] in b;
    assert b != [] ==> b[0] in a;
    if a != [] {
      if a[0] != b[0] {
        var i :| 0 <= i < |b| && b[i] == a[0];
        var j :| 0 <= j < |a| && a[j] == b[0];
        assert Less(b[0], a[0]) by { assert i > 0; }
        assert Less(a[0], b[0]) by { assert j > 0; }
        LessAsymmetric(a[0], b[0]);
      }
      assert a == [a[0]] + a[1..] && b == [b[0]] + b[1..];
      forall k
        ensures k in a[1..] <==> k in b[1..]
      {
        if k in a[1..] {
          var i :| 1 <= i < |a| && a[i] == k;
          assert Less(a[0], k);
          LessIrreflexive(k);
          assert k in a;
          var i' :| 0 <= i' < |b| && b[i'] == k;
          assert i' != 0;
          assert b[1..][i' - 1] == k;
        }
        if k in b[1..] {
          var i :| 1 <= i < |b| && b[i] == k;
          assert Less(b[0], k);
          LessIrreflexive(k);
          assert k in b;
          var i' :| 0 <= i' < |a| && a[i'] == k;
          assert i' != 0;
          assert a[1..][i' - 1] == k;
        }
      }
      SortedUnique(a[1..], b[1..]);
    }
  }

  /** Python's `sep.join(parts)`: the parts in order, `sep` between each two neighbours. */
  function Join(sep: string, parts: seq<string>): (r: string)
    ensures |parts| == 1 ==> r == parts[0]
    ensures |parts| >= 2 ==> |parts[0] + sep| <= |r| && r[..|parts[0] + sep|] == parts[0] + sep
  {
    if |parts| == 0 then ""
    else if |parts| == 1 then parts[0]
    else parts[0] + sep + Join(sep, parts[1..])
  }

  /** Python's `str.lower` on one character (ASCII letters only). */
  function LowerChar(c: char): (l: char)
  {
    if 'A' <= c <= 'Z' then (c as int + 32) as char else c
  }

  /** Python's `str.lower` (ASCII letters only). */
  function Lower(s: string): (r: string)
    ensures |r| == |s|
    ensures forall i :: 0 <= i < |s| ==> r[i] == LowerChar(s[i])
  {
    seq(|s|, i requires 0 <= i < |s| => LowerChar(s[i]))
  }

  /** A string lower-cases to `w` exactly when it spells `w` with any mix of letter cases. */
  lemma {:induction false} LowerMatches(s: string, w: string)
    requires forall i :: 0 <= i < |w| ==> 'a' <= w[i] <= 'z'
    ensures Lower(s) == w <==>
              |s| == |w| && forall i :: 0 <= i < |s| ==> s[i] == w[i] || s[i] as int == w[i] as int - 32
  {
    if Lower(s) == w {
      forall i | 0 <= i < |s|
        ensures s[i] == w[i] || s[i] as int == w[i] as int - 32
      {
        assert LowerChar(s[i]) == w[i];
      }
    }
    if |s| == |w| && forall i :: 0 <= i < |s| ==> s[i] == w[i] || s[i] as int == w[i] as int - 32 {
      forall i | 0 <= i < |s|
        ensures Lower(s)[i] == w[i]
      {
        assert LowerChar(s[i]) == w[i];
      }
    }
  }
}
