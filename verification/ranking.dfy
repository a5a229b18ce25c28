/**
 * Scored records and the ordering the bot gives them: Python's
 * `results.sort(key=lambda x: x[1], reverse=True)`, a stable sort by
 * descending score (records with equal scores keep their relative order).
 */
module Ranking {

  /** A (record, score) pair. */
  datatype Scored<T> = Scored(item: T, score: real)

  predicate SortedDesc<T>(s: seq<Scored<T>>) {
    forall i, j :: 0 <= i < j < |s| ==> s[i].score >= s[j].score
  }

  /** Places `x` after every entry whose score is at least the score of `x`. */
  function InsertDesc<T>(x: Scored<T>, s: seq<Scored<T>>): (r: seq<Scored<T>>)
    ensures |r| == |s| + 1
  {
    if s == [] then [x]
    else if s[0].score >= x.score then [s[0]] + InsertDesc(x, s[1..])
    else [x] + s
  }

  /** The stable descending sort, as insertion of each entry in input order. */
  function SortDesc<T>(s: seq<Scored<T>>): (r: seq<Scored<T>>)
    ensures |r| == |s|
    decreases |s|
  {
    if s == [] then [] else InsertDesc(s[|s| - 1], SortDesc(s[..|s| - 1]))
  }

  /** The entries carrying score `v`, in their order. */
  function WithScore<T>(s: seq<Scored<T>>, v: real): seq<Scored<T>> {
    if s == [] then []
    else (if s[0].score == v then [s[0]] else []) + WithScore(s[1..], v)
  }

  lemma {:induction false} WithScoreAppend<T>(a: seq<Scored<T>>, b: seq<Scored<T>>, v: real)
    ensures WithScore(a + b, v) == WithScore(a, v) + WithScore(b, v)
    decreases |a|
  {
    if a == [] {
      assert a + b == b;
    } else {
      var head := if a[0].score == v then [a[0]] else [];
      calc {
        WithScore(a + b, v);
        == { assert (a + b)[0] == a[0] && (a + b)[1..] == a[1..] + b; }
        head + WithScore(a[1..] + b, v);
        == { WithScoreAppend(a[1..], b, v); }
        head + (WithScore(a[1..], v) + WithScore(b, v));
        (head + WithScore(a[1..], v)) + WithScore(b, v);
      }
    }
  }

  lemma {:induction false} WithScoreNone<T>(s: seq<Scored<T>>, v: real)
    requires forall i :: 0 <= i < |s| ==> s[i].score != v
    ensures WithScore(s, v) == []
    decreases |s|
  {
    if s != [] {
      WithScoreNone(s[1..], v);
    }
  }

  lemma {:induction false} InsertDescMultiset<T>(x: Scored<T>, s: seq<Scored<T>>)
    ensures multiset(InsertDesc(x, s)) == multiset(s) + multiset{x}
    decreases |s|
  {
    if s != [] && s[0].score >= x.score {
      InsertDescMultiset(x, s[1..]);
      assert s == [s[0]] + s[1..];
    }
  }

  lemma SortedCons<T>(h: Scored<T>, t: seq<Scored<T>>)
    requires SortedDesc(t)
    requires forall j :: 0 <= j < |t| ==> h.score >= t[j].score
    ensures SortedDesc([h] + t)
  {
    var r := [h] + t;
    forall i, j | 0 <= i < j < |r| ensures r[i].score >= r[j].score {
      assert r[j] == t[j - 1];
      if i > 0 {
        assert r[i] == t[i - 1];
      }
    }
  }

  lemma {:induction false} InsertDescSorted<T>(x: Scored<T>, s: seq<Scored<T>>)
    requires SortedDesc(s)
    ensures SortedDesc(InsertDesc(x, s))
    decreases |s|
  {
    if s == [] {
    } else if s[0].score >= x.score {
      var rest := InsertDesc(x, s[1..]);
      SortedTail(s);
      InsertDescSorted(x, s[1..]);
      InsertDescMultiset(x, s[1..]);
      forall j | 0 <= j < |rest| ensures s[0].score >= rest[j].score {
        assert rest[j] in multiset(rest);
        if rest[j] != x {
          assert rest[j] in multiset(s[1..]);
          var k :| 0 <= k < |s[1..]| && s[1..][k] == rest[j];
          assert s[1..][k] == s[k + 1];
        }
      }
      SortedCons(s[0], rest);
    } else {
      SortedTail(s);
      SortedCons(x, s);
    }
  }

  lemma SortedTail<T>(s: seq<Scored<T>>)
    requires SortedDesc(s) && s != []
    ensures SortedDesc(s[1..])
    ensures forall i :: 0 <= i < |s| ==> s[0].score >= s[i].score
  {
    forall i, j | 0 <= i < j < |s[1..]| ensures s[1..][i].score >= s[1..][j].score {
      assert s[1..][i] == s[i + 1] && s[1..][j] == s[j + 1];
    }
  }

  lemma {:induction false} InsertDescStable<T>(x: Scored<T>, s: seq<Scored<T>>, v: real)
    requires SortedDesc(s)
    ensures WithScore(InsertDesc(x, s), v) == WithScore(s, v) + (if x.score == v then [x] else [])
    decreases |s|
  {
    var tail := if x.score == v then [x] else [];
    if s == [] {
      calc {
        WithScore(InsertDesc(x, s), v);
        WithScore([x], v);
        == { assert [x][0] == x && [x][1..] == []; }
        tail + WithScore([], v);
      }
    } else if s[0].score >= x.score {
      var rest := InsertDesc(x, s[1..]);
      var head := if s[0].score == v then [s[0]] else [];
      calc {
        WithScore(InsertDesc(x, s), v);
        WithScore([s[0]] + rest, v);
        == { assert ([s[0]] + rest)[0] == s[0] && ([s[0]] + rest)[1..] == rest; }
        head + WithScore(rest, v);
        == { SortedTail(s); InsertDescStable(x, s[1..], v); }
        head + (WithScore(s[1..], v) + tail);
        (head + WithScore(s[1..], v)) + tail;
        WithScore(s, v) + tail;
      }
    } else {
      calc {
        WithScore(InsertDesc(x, s), v);
        WithScore([x] + s, v);
        == { assert ([x] + s)[0] == x && ([x] + s)[1..] == s; }
        tail + WithScore(s, v);
        == { if x.score == v { SortedTail(s); WithScoreNone(s, v); } }
        WithScore(s, v) + tail;
      }
    }
  }

  /** The sort yields a descending, stable permutation of its input. */
  lemma {:induction false} SortDescProperties<T>(s: seq<Scored<T>>)
    ensures SortedDesc(SortDesc(s))
    ensures multiset(SortDesc(s)) == multiset(s)
    ensures forall v :: WithScore(SortDesc(s), v) == WithScore(s, v)
    decreases |s|
  {
    if s != [] {
      var init, last := s[..|s| - 1], s[|s| - 1];
      assert s == init + [last];
      SortDescProperties(init);
      forall v ensures WithScore(SortDesc(s), v) == WithScore(s, v) {
        InsertDescStable(last, SortDesc(init), v);
        WithScoreAppend(init, [last], v);
        assert WithScore([last], v) == (if last.score == v then [last] else []) + WithScore([last][1..], v);
      }
      InsertDescSorted(last, SortDesc(init));
      InsertDescMultiset(last, SortDesc(init));
    }
  }

  /** The sort keeps exactly the entries of its input. */
  lemma SortDescMembers<T>(s: seq<Scored<T>>)
    ensures |SortDesc(s)| == |s|
    ensures forall x :: x in SortDesc(s) <==> x in s
  {
    SortDescProperties(s);
    assert |SortDesc(s)| == |multiset(SortDesc(s))| == |multiset(s)| == |s|;
    forall x ensures x in SortDesc(s) <==> x in s {
      assert x in SortDesc(s) <==> x in multiset(SortDesc(s));
      assert x in s <==> x in multiset(s);
    }
  }
}
