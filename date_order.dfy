/**
  The order the pipeline sorts days by. The site compares date strings with
  `a.date.localeCompare(b.date)`; here that is the lexicographic order on
  characters, which agrees with it on dates written as YYYY-MM-DD.
 */
module DateOrder {
  import opened StravaTypes

  /** `a.localeCompare(b) < 0`: a sorts strictly before b. */
  predicate Below(a: string, b: string)
    decreases |a|
  {
    if a == [] then b != []
    else if b == [] then false
    else a[0] < b[0] || (a[0] == b[0] && Below(a[1..], b[1..]))
  }

  /** A proper prefix sorts before the longer string: "2024-01" before "2024-01-05". */
  lemma {:induction false} PrefixBelow(a: string, b: string)
    requires a < b
    ensures Below(a, b)
    decreases |a|
  {
    if a != [] {
      assert a[1..] < b[1..];
      PrefixBelow(a[1..], b[1..]);
    }
  }

  lemma {:induction false} BelowIrreflexive(a: string)
    ensures !Below(a, a)
    decreases |a|
  {
    if a != [] {
      BelowIrreflexive(a[1..]);
    }
  }

  lemma {:induction false} BelowAsymmetric(a: string, b: string)
    requires Below(a, b)
    ensures !Below(b, a)
    decreases |a|
  {
    if a != [] && b != [] && a[0] == b[0] {
      BelowAsymmetric(a[1..], b[1..]);
    }
  }

  lemma {:induction false} BelowTransitive(a: string, b: string, c: string)
    requires Below(a, b) && Below(b, c)
    ensures Below(a, c)
    decreases |a|
  {
    if a != [] && a[0] == b[0] && b[0] == c[0] {
      BelowTransitive(a[1..], b[1..], c[1..]);
    }
  }

  /** Any two different strings are ordered one way or the other. */
  lemma {:induction false} BelowTotal(a: string, b: string)
    requires a != b
    ensures Below(a, b) || Below(b, a)
    decreases |a|
  {
    if a != [] && b != [] && a[0] == b[0] {
      assert a == [a[0]] + a[1..] && b == [b[0]] + b[1..];
      BelowTotal(a[1..], b[1..]);
    }
  }

  /** The days are sorted by date with no date repeated. */
  predicate StrictlyAscending(days: seq<DayActivity>) {
    forall i, j :: 0 <= i < j < |days| ==> Below(days[i].date, days[j].date)
  }

  /** No two days share a date. */
  predicate DistinctDates(days: seq<DayActivity>) {
    forall i, j :: 0 <= i < j < |days| ==> days[i].date != days[j].date
  }

  /** The set of dates a list of days covers. */
  function DateSet(days: seq<DayActivity>): set<string> {
    set j | 0 <= j < |days| :: days[j].date
  }

  lemma AscendingHasDistinctDates(days: seq<DayActivity>)
    requires StrictlyAscending(days)
    ensures DistinctDates(days)
  {
    forall i, j | 0 <= i < j < |days| ensures days[i].date != days[j].date {
      BelowIrreflexive(days[i].date);
    }
  }

  /**
    Two sorted lists of dates that cover the same set are the same list: the order
    of a sorted, duplicate-free list is fixed by its set of dates.
   */
  lemma {:induction false} AscendingDatesUnique(s: seq<DayActivity>, t: seq<DayActivity>)
    requires StrictlyAscending(s) && StrictlyAscending(t)
    requires DateSet(s) == DateSet(t)
    ensures |s| == |t|
    ensures forall j :: 0 <= j < |s| ==> s[j].date == t[j].date
    decreases |s|
  {
    assert |s| > 0 ==> s[0].date in DateSet(s);
    assert |t| > 0 ==> t[0].date in DateSet(t);
    if s != [] {
      var k :| 0 <= k < |t| && t[k].date == s[0].date;
      var m :| 0 <= m < |s| && s[m].date == t[0].date;
      if k > 0 {
        if m > 0 {
          BelowAsymmetric(s[0].date, t[0].date);
        } else {
          BelowIrreflexive(t[0].date);
        }
        assert false;
      }
      var s', t' := s[1..], t[1..];
      forall x | x in DateSet(s') ensures x in DateSet(t') {
        var i :| 1 <= i < |s| && s[i].date == x;
        BelowIrreflexive(x);
        assert s[i].date in DateSet(s);
        var l :| 0 <= l < |t| && t[l].date == x;
        assert l != 0;
        assert t'[l - 1].date == x;
      }
      forall x | x in DateSet(t') ensures x in DateSet(s') {
        var i :| 1 <= i < |t| && t[i].date == x;
        BelowIrreflexive(x);
        assert t[i].date in DateSet(t);
        var l :| 0 <= l < |s| && s[l].date == x;
        assert l != 0;
        assert s'[l - 1].date == x;
      }
      AscendingDatesUnique(s', t');
    }
  }
}
