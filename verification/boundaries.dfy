/** Where the calendar header draws its top-band dividers: the boundary rules
    that compare neighbouring axis dates, the indices they select (in the
    order the header loops visit them) and how many there are. */
module Boundaries {
  import opened Dates

  /** The four ways the header loops compare a date with its neighbour. */
  datatype Rule =
    | Start(field: Field)            // i == 0, or the field differs from date i - 1
    | StartBeforeLast(field: Field)  // a Start that is not the last date
    | EndOfRun(field: Field)         // date i + 1 exists and its field differs
    | Change(field: Field)           // i > 0 and the field differs from date i - 1

  predicate Differs(f: Field, a: AxisDate, b: AxisDate)
  {
    FieldOf(f, a) != FieldOf(f, b)
  }

  /** Index `i` of `dates` satisfies `rule`. */
  predicate IsBoundary(rule: Rule, dates: seq<AxisDate>, i: int)
  {
    0 <= i < |dates| &&
    match rule
    case Start(f) => i == 0 || Differs(f, dates[i], dates[i - 1])
    case StartBeforeLast(f) => i != |dates| - 1 && (i == 0 || Differs(f, dates[i], dates[i - 1]))
    case EndOfRun(f) => i + 1 < |dates| && Differs(f, dates[i], dates[i + 1])
    case Change(f) => i > 0 && Differs(f, dates[i], dates[i - 1])
  }

  /** The boundaries among the first `hi` dates, in increasing index order,
      as a loop from index 0 upwards meets them. */
  function Ascending(rule: Rule, dates: seq<AxisDate>, hi: nat): (r: seq<nat>)
    requires hi <= |dates|
    ensures forall k :: 0 <= k < |r| ==> r[k] < hi && IsBoundary(rule, dates, r[k])
    ensures forall i :: 0 <= i < hi && IsBoundary(rule, dates, i) ==> i in r
    ensures forall a, b :: 0 <= a < b < |r| ==> r[a] < r[b]
  {
    if hi == 0 then []
    else Ascending(rule, dates, hi - 1) + (if IsBoundary(rule, dates, hi - 1) then [hi - 1] else [])
  }

  /** The boundaries at index `lo` or above, in decreasing index order, as a
      loop from the last date downwards meets them. */
  function Descending(rule: Rule, dates: seq<AxisDate>, lo: nat): (r: seq<nat>)
    requires lo <= |dates|
    ensures forall k :: 0 <= k < |r| ==> lo <= r[k] && IsBoundary(rule, dates, r[k])
    ensures forall i :: lo <= i && IsBoundary(rule, dates, i) ==> i in r
    ensures forall a, b :: 0 <= a < b < |r| ==> r[a] > r[b]
    decreases |dates| - lo
  {
    if lo == |dates| then []
    else Descending(rule, dates, lo + 1) + (if IsBoundary(rule, dates, lo) then [lo] else [])
  }

  /** The first date after `i` whose field starts a new run, or |dates| when
      the run of date `i` lasts to the end. */
  function NextStart(f: Field, dates: seq<AxisDate>, i: nat): (r: nat)
    requires i < |dates|
    ensures i < r <= |dates|
    ensures r < |dates| ==> IsBoundary(Start(f), dates, r)
    ensures forall j :: i < j < r ==> !IsBoundary(Start(f), dates, j)
    decreases |dates| - i
  {
    if i + 1 == |dates| then |dates|
    else if IsBoundary(Start(f), dates, i + 1) then i + 1
    else NextStart(f, dates, i + 1)
  }

  /** Every date from `i` up to the next start carries the field value of date `i`. */
  lemma {:induction false} NextStartRun(f: Field, dates: seq<AxisDate>, i: nat)
    requires i < |dates|
    ensures forall j :: i <= j < NextStart(f, dates, i) ==> FieldOf(f, dates[j]) == FieldOf(f, dates[i])
    decreases |dates| - i
  {
    if i + 1 < |dates| && !IsBoundary(Start(f), dates, i + 1) {
      NextStartRun(f, dates, i + 1);
    }
  }

  /** The number of neighbouring pairs of dates whose field differs. */
  function AdjacentChanges(f: Field, dates: seq<AxisDate>): nat
  {
    if |dates| < 2 then 0
    else AdjacentChanges(f, dates[..|dates| - 1])
         + (if Differs(f, dates[|dates| - 2], dates[|dates| - 1]) then 1 else 0)
  }

  /** The distinct values of the field among the dates. */
  function Values(f: Field, dates: seq<AxisDate>): set<int>
  {
    set d | d in dates :: FieldOf(f, d)
  }

  predicate NonDecreasing(f: Field, dates: seq<AxisDate>)
  {
    forall i, j :: 0 <= i < j < |dates| ==> FieldOf(f, dates[i]) <= FieldOf(f, dates[j])
  }

  predicate NonIncreasing(f: Field, dates: seq<AxisDate>)
  {
    forall i, j :: 0 <= i < j < |dates| ==> FieldOf(f, dates[i]) >= FieldOf(f, dates[j])
  }

  /** The field runs one way through the dates: oldest first or latest first. */
  predicate Monotone(f: Field, dates: seq<AxisDate>)
  {
    NonDecreasing(f, dates) || NonIncreasing(f, dates)
  }

  // ---------------------------------------------------------------------
  // Counting boundaries

  lemma {:induction false} ChangeCountPrefix(f: Field, dates: seq<AxisDate>, hi: nat)
    requires hi <= |dates|
    ensures |Ascending(Change(f), dates, hi)| == AdjacentChanges(f, dates[..hi])
  {
    if hi > 0 {
      ChangeCountPrefix(f, dates, hi - 1);
      assert dates[..hi][..hi - 1] == dates[..hi - 1];
    }
  }

  /** A change rule selects one index per neighbouring pair that differs. */
  lemma ChangeCount(f: Field, dates: seq<AxisDate>)
    ensures |Ascending(Change(f), dates, |dates|)| == AdjacentChanges(f, dates)
  {
    ChangeCountPrefix(f, dates, |dates|);
    assert dates[..|dates|] == dates;
  }

  lemma {:induction false} StartCountPrefix(f: Field, dates: seq<AxisDate>, hi: nat)
    requires 1 <= hi <= |dates|
    ensures |Ascending(Start(f), dates, hi)| == 1 + |Ascending(Change(f), dates, hi)|
  {
    if hi > 1 {
      StartCountPrefix(f, dates, hi - 1);
    }
  }

  /** A start rule selects the first date and every change after it. */
  lemma StartCount(f: Field, dates: seq<AxisDate>)
    requires |dates| >= 1
    ensures |Ascending(Start(f), dates, |dates|)| == 1 + AdjacentChanges(f, dates)
  {
    StartCountPrefix(f, dates, |dates|);
    ChangeCount(f, dates);
  }

  lemma {:induction false} EndCountPrefix(f: Field, dates: seq<AxisDate>, hi: nat)
    requires hi < |dates|
    ensures |Ascending(EndOfRun(f), dates, hi)| == |Ascending(Change(f), dates, hi + 1)|
  {
    if hi > 0 {
      EndCountPrefix(f, dates, hi - 1);
    }
  }

  /** An end-of-run rule selects one index per neighbouring pair that differs. */
  lemma EndCount(f: Field, dates: seq<AxisDate>)
    ensures |Ascending(EndOfRun(f), dates, |dates|)| == AdjacentChanges(f, dates)
  {
    if |dates| > 0 {
      EndCountPrefix(f, dates, |dates| - 1);
    }
    ChangeCount(f, dates);
  }

  lemma {:induction false} SplitCount(rule: Rule, dates: seq<AxisDate>, lo: nat)
    requires lo <= |dates|
    ensures |Descending(rule, dates, lo)| + |Ascending(rule, dates, lo)| == |Ascending(rule, dates, |dates|)|
    decreases |dates| - lo
  {
    if lo < |dates| {
      SplitCount(rule, dates, lo + 1);
    }
  }

  lemma {:induction false} StartBeforeLastPrefix(f: Field, dates: seq<AxisDate>, hi: nat)
    requires hi < |dates|
    ensures Ascending(StartBeforeLast(f), dates, hi) == Ascending(Start(f), dates, hi)
  {
    if hi > 0 {
      StartBeforeLastPrefix(f, dates, hi - 1);
    }
  }

  /** Walking downwards, the starts other than the last date, together with a
      start at the last date if there is one, are the first date plus every change. */
  lemma StartBeforeLastCount(f: Field, dates: seq<AxisDate>)
    requires |dates| >= 1
    ensures |Descending(StartBeforeLast(f), dates, 0)|
            + (if IsBoundary(Start(f), dates, |dates| - 1) then 1 else 0)
            == 1 + AdjacentChanges(f, dates)
  {
    var n := |dates|;
    SplitCount(StartBeforeLast(f), dates, 0);
    StartBeforeLastPrefix(f, dates, n - 1);
    assert !IsBoundary(StartBeforeLast(f), dates, n - 1);
    assert Ascending(StartBeforeLast(f), dates, n) == Ascending(StartBeforeLast(f), dates, n - 1);
    StartCount(f, dates);
  }

  lemma ValuesOfSnoc(f: Field, dates: seq<AxisDate>)
    requires |dates| >= 1
    ensures Values(f, dates) == Values(f, dates[..|dates| - 1]) + {FieldOf(f, dates[|dates| - 1])}
  {
    assert dates == dates[..|dates| - 1] + [dates[|dates| - 1]];
  }

  lemma ValuesBelowLast(f: Field, dates: seq<AxisDate>, v: int)
    requires |dates| >= 1 && NonDecreasing(f, dates) && v in Values(f, dates)
    ensures v <= FieldOf(f, dates[|dates| - 1])
  {
    var d :| d in dates && FieldOf(f, d) == v;
    var j :| 0 <= j < |dates| && dates[j] == d;
    if j < |dates| - 1 {
      assert FieldOf(f, dates[j]) <= FieldOf(f, dates[|dates| - 1]);
    }
  }

  lemma ValuesAboveLast(f: Field, dates: seq<AxisDate>, v: int)
    requires |dates| >= 1 && NonIncreasing(f, dates) && v in Values(f, dates)
    ensures v >= FieldOf(f, dates[|dates| - 1])
  {
    var d :| d in dates && FieldOf(f, d) == v;
    var j :| 0 <= j < |dates| && dates[j] == d;
    if j < |dates| - 1 {
      assert FieldOf(f, dates[j]) >= FieldOf(f, dates[|dates| - 1]);
    }
  }

  /** On monotone values, a date that differs from the one before carries a
      value none of the earlier dates has. */
  lemma LastValueNew(f: Field, dates: seq<AxisDate>)
    requires |dates| >= 2 && Monotone(f, dates)
    requires Differs(f, dates[|dates| - 2], dates[|dates| - 1])
    ensures FieldOf(f, dates[|dates| - 1]) !in Values(f, dates[..|dates| - 1])
  {
    var front := dates[..|dates| - 1];
    var v := FieldOf(f, dates[|dates| - 1]);
    if v in Values(f, front) {
      if NonDecreasing(f, dates) {
        ValuesBelowLast(f, front, v);
      } else {
        ValuesAboveLast(f, front, v);
      }
      assert false;
    }
  }

  /** On monotone values, appending a date that differs from the one before
      adds a new value. */
  lemma ValuesGrow(f: Field, dates: seq<AxisDate>)
    requires |dates| >= 2 && Monotone(f, dates)
    requires Differs(f, dates[|dates| - 2], dates[|dates| - 1])
    ensures |Values(f, dates)| == |Values(f, dates[..|dates| - 1])| + 1
  {
    ValuesOfSnoc(f, dates);
    LastValueNew(f, dates);
  }

  /** Appending a date that agrees with the one before adds no value. */
  lemma ValuesKeep(f: Field, dates: seq<AxisDate>)
    requires |dates| >= 2 && !Differs(f, dates[|dates| - 2], dates[|dates| - 1])
    ensures Values(f, dates) == Values(f, dates[..|dates| - 1])
  {
    var front := dates[..|dates| - 1];
    ValuesOfSnoc(f, dates);
    assert front[|dates| - 2] in front;
  }

  /** On dates whose field runs one way, every change brings a value not
      seen before, so the start count is the number of distinct values. */
  lemma {:induction false} DistinctValuesCount(f: Field, dates: seq<AxisDate>)
    requires |dates| >= 1 && Monotone(f, dates)
    ensures |Values(f, dates)| == 1 + AdjacentChanges(f, dates)
    decreases |dates|
  {
    var n := |dates|;
    if n == 1 {
      assert Values(f, dates) == {FieldOf(f, dates[0])};
    } else {
      var front := dates[..n - 1];
      assert Monotone(f, front) by {
        if NonDecreasing(f, dates) {
          assert NonDecreasing(f, front);
        } else {
          assert NonIncreasing(f, front);
        }
      }
      DistinctValuesCount(f, front);
      if Differs(f, dates[n - 2], dates[n - 1]) {
        ValuesGrow(f, dates);
      } else {
        ValuesKeep(f, dates);
      }
    }
  }

  /** Chronological dates never go back a year. */
  lemma ChronologicalYears(dates: seq<AxisDate>)
    requires Chronological(dates)
    ensures NonDecreasing(FullYear, dates)
  {
    forall i, j | 0 <= i < j < |dates|
      ensures FieldOf(FullYear, dates[i]) <= FieldOf(FullYear, dates[j])
    {
      assert NotAfter(dates[i], dates[j]);
    }
  }

  /** Dates laid out latest first never go forward a year. */
  lemma ReversedChronologicalYears(dates: seq<AxisDate>)
    requires Chronological(Reversed(dates))
    ensures NonIncreasing(FullYear, dates)
  {
    var r := Reversed(dates);
    var n := |dates|;
    forall i, j | 0 <= i < j < n
      ensures FieldOf(FullYear, dates[i]) >= FieldOf(FullYear, dates[j])
    {
      assert NotAfter(r[n - 1 - j], r[n - 1 - i]);
    }
  }
}
