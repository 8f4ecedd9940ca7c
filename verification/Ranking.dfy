/** The order in which entry candidates are tried (app/workers/tasks.py:26-31). */
module Ranking {
  import opened Config

  datatype Candidate = Candidate(confidence: real, symbol: string, timeframe: Timeframe, strategy: string)

  // ---------- Strings in dictionary order ----------

  predicate AtMostString(a: string, b: string) {
    a == "" || (b != "" && (a[0] < b[0] || (a[0] == b[0] && AtMostString(a[1..], b[1..]))))
  }

  lemma {:induction false} StringsAreTotal(a: string, b: string)
    ensures AtMostString(a, b) || AtMostString(b, a)
    ensures AtMostString(a, b) && AtMostString(b, a) ==> a == b
    ensures AtMostString(a, a)
  {
    if a != "" {
      StringsAreTotal(a[1..], if b == "" then "" else b[1..]);
      if b != "" && a[0] == b[0] && a[1..] == b[1..] {
        assert a == [a[0]] + a[1..] && b == [b[0]] + b[1..];
      }
    }
  }

  lemma {:induction false} StringsAreTransitive(a: string, b: string, c: string)
    requires AtMostString(a, b) && AtMostString(b, c)
    ensures AtMostString(a, c)
  {
    if a != "" && a[0] == b[0] && b[0] == c[0] {
      StringsAreTransitive(a[1..], b[1..], c[1..]);
    }
  }

  // ---------- The sort key ----------

  /** Higher confidence first; then symbol, timeframe and strategy in dictionary order. */
  predicate NotAfter(a: Candidate, b: Candidate) {
    a.confidence > b.confidence ||
    (a.confidence == b.confidence &&
     (if a.symbol != b.symbol then AtMostString(a.symbol, b.symbol)
      else if a.timeframe != b.timeframe then AtMostString(a.timeframe.Name(), b.timeframe.Name())
      else AtMostString(a.strategy, b.strategy)))
  }

  lemma NamesAreDistinct(a: Timeframe, b: Timeframe)
    ensures a.Name() == b.Name() ==> a == b
  {
    assert M1.Name()[0] == '1' && M5.Name()[0] == '5' && H4.Name()[0] == '4' && H1.Name()[1] == 'h' && M15.Name()[1] == '5';
  }

  /** The key is a total order on candidates: two that compare equal are the same candidate. */
  lemma CandidatesAreTotal(a: Candidate, b: Candidate)
    ensures NotAfter(a, b) || NotAfter(b, a)
    ensures NotAfter(a, b) && NotAfter(b, a) ==> a == b
    ensures NotAfter(a, a)
  {
    StringsAreTotal(a.symbol, b.symbol);
    StringsAreTotal(a.timeframe.Name(), b.timeframe.Name());
    StringsAreTotal(a.strategy, b.strategy);
    StringsAreTotal(a.strategy, a.strategy);
    NamesAreDistinct(a.timeframe, b.timeframe);
  }

  lemma CandidatesAreTransitive(a: Candidate, b: Candidate, c: Candidate)
    requires NotAfter(a, b) && NotAfter(b, c)
    ensures NotAfter(a, c)
  {
    if a.confidence == b.confidence == c.confidence {
      if AtMostString(a.symbol, b.symbol) && AtMostString(b.symbol, c.symbol) {
        StringsAreTransitive(a.symbol, b.symbol, c.symbol);
      }
      StringsAreTotal(a.symbol, b.symbol);
      StringsAreTotal(b.symbol, c.symbol);
      if AtMostString(a.timeframe.Name(), b.timeframe.Name()) && AtMostString(b.timeframe.Name(), c.timeframe.Name()) {
        StringsAreTransitive(a.timeframe.Name(), b.timeframe.Name(), c.timeframe.Name());
      }
      StringsAreTotal(a.timeframe.Name(), b.timeframe.Name());
      NamesAreDistinct(a.timeframe, b.timeframe);
      if AtMostString(a.strategy, b.strategy) && AtMostString(b.strategy, c.strategy) {
        StringsAreTransitive(a.strategy, b.strategy, c.strategy);
      }
    }
  }

  // ---------- Ranking ----------

  ghost predicate Ranked(s: seq<Candidate>) {
    forall i, j :: 0 <= i < j < |s| ==> NotAfter(s[i], s[j])
  }

  function Insert(c: Candidate, s: seq<Candidate>): (r: seq<Candidate>)
    ensures multiset(r) == multiset(s) + multiset{c}
    ensures Ranked(s) ==> Ranked(r)
  {
    if s == [] then [c]
    else if NotAfter(c, s[0]) then
      InsertBeforeIsRanked(c, s);
      [c] + s
    else
      CandidatesAreTotal(c, s[0]);
      assert s == [s[0]] + s[1..];
      InsertAfterIsRanked(c, s, Insert(c, s[1..]));
      [s[0]] + Insert(c, s[1..])
  }

  lemma InsertBeforeIsRanked(c: Candidate, s: seq<Candidate>)
    requires s != [] && NotAfter(c, s[0])
    ensures Ranked(s) ==> Ranked([c] + s)
  {
    if Ranked(s) {
      forall j | 0 <= j < |s|
        ensures NotAfter(c, s[j])
      {
        if j > 0 {
          CandidatesAreTransitive(c, s[0], s[j]);
        }
      }
    }
  }

  lemma InsertAfterIsRanked(c: Candidate, s: seq<Candidate>, rest: seq<Candidate>)
    requires s != [] && NotAfter(s[0], c)
    requires multiset(rest) == multiset(s[1..]) + multiset{c}
    requires Ranked(s[1..]) ==> Ranked(rest)
    ensures Ranked(s) ==> Ranked([s[0]] + rest)
  {
    if Ranked(s) {
      forall j | 0 <= j < |rest|
        ensures NotAfter(s[0], rest[j])
      {
        assert rest[j] in multiset(rest);
        if rest[j] != c {
          assert rest[j] in s[1..];
        }
      }
    }
  }

  /** The candidates in ranked order: what Python's stable sort by the key yields. */
  function RankEntryCandidates(candidates: seq<Candidate>): (r: seq<Candidate>)
    ensures Ranked(r)
    ensures multiset(r) == multiset(candidates)
    ensures |r| == |candidates|
  {
    if candidates == [] then []
    else
      var n := |candidates| - 1;
      assert candidates == candidates[..n] + [candidates[n]];
      var r := Insert(candidates[n], RankEntryCandidates(candidates[..n]));
      assert |multiset(r)| == |multiset(candidates)|;
      r
  }

  lemma WithoutFirst(s: seq<Candidate>)
    requires s != []
    ensures multiset(s[1..]) == multiset(s) - multiset{s[0]}
  {
    assert s == [s[0]] + s[1..];
  }

  /** The first of a ranked sequence is not after any of its elements. */
  lemma FirstIsLeast(s: seq<Candidate>, c: Candidate)
    requires s != [] && Ranked(s) && c in multiset(s)
    ensures NotAfter(s[0], c)
  {
    hide NotAfter;
    var i :| 0 <= i < |s| && s[i] == c;
    if i == 0 {
      CandidatesAreTotal(c, c);
    }
  }

  /** A ranked sequence is determined by its elements. */
  lemma {:induction false} RankedIsUnique(a: seq<Candidate>, b: seq<Candidate>)
    requires Ranked(a) && Ranked(b) && multiset(a) == multiset(b)
    ensures a == b
  {
    hide NotAfter;
    assert |multiset(a)| == |a| && |multiset(b)| == |b|;
    if a != [] {
      FirstIsLeast(a, b[0]);
      FirstIsLeast(b, a[0]);
      CandidatesAreTotal(a[0], b[0]);
      WithoutFirst(a);
      WithoutFirst(b);
      RankedIsUnique(a[1..], b[1..]);
      assert a == [a[0]] + a[1..] && b == [b[0]] + b[1..];
    }
  }

  /** The ranking does not depend on the order in which the candidates were found. */
  lemma RankingIsCanonical(a: seq<Candidate>, b: seq<Candidate>)
    requires multiset(a) == multiset(b)
    ensures RankEntryCandidates(a) == RankEntryCandidates(b)
  {
    RankedIsUnique(RankEntryCandidates(a), RankEntryCandidates(b));
  }

  ghost predicate Distinct<T>(s: seq<T>) {
    forall i, j :: 0 <= i < j < |s| ==> s[i] != s[j]
  }

  /** Sequences of distinct elements with the same members have the same elements. */
  lemma {:induction false} DistinctMembers<T>(a: seq<T>, b: seq<T>)
    requires Distinct(a) && Distinct(b) && forall x :: x in a <==> x in b
    ensures multiset(a) == multiset(b)
  {
    forall x
      ensures multiset(a)[x] == multiset(b)[x]
    {
      OccursOnce(a, x);
      OccursOnce(b, x);
    }
  }

  lemma {:induction false} OccursOnce<T>(s: seq<T>, x: T)
    requires Distinct(s)
    ensures multiset(s)[x] == if x in s then 1 else 0
  {
    if s != [] {
      var n := |s| - 1;
      assert s == s[..n] + [s[n]];
      OccursOnce(s[..n], x);
    }
  }
}
