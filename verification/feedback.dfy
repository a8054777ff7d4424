/** The `dashboard` view of app.py: the number of feedback records, the
    per-label distribution fed to the pie chart (`value_counts`), and the last
    five records labelled "negative" (`df[df['sentiment'] == 'negative'].tail(5)`). */
module Feedback {
  import opened Py
  import opened Records

  const NegativeLabel := "negative"

  /** How many recent concerns the dashboard shows. */
  const RecentLimit := 5

  /** One slice of the pie chart: a label and how many records carry it. */
  datatype LabelCount = LabelCount(sentiment: string, count: nat)

  /** What the dashboard template receives. `sentimentChart` is `None` when
      there is no feedback yet; otherwise it holds the counts the chart is
      drawn from. */
  datatype View = View(totalFeedback: nat, sentimentChart: Option<seq<LabelCount>>, recentConcerns: seq<FeedbackRecord>)

  function Min(a: int, b: int): int {
    if a <= b then a else b
  }

  // ---------------------------------------------------------------- counting

  /** The `sentiment` column of the feedback log. */
  function Labels(fb: seq<FeedbackRecord>): (r: seq<string>)
    ensures |r| == |fb|
    ensures forall i :: 0 <= i < |fb| ==> r[i] == fb[i].sentiment
  {
    seq(|fb|, i requires 0 <= i < |fb| => fb[i].sentiment)
  }

  /** How many times `x` occurs in `s`. */
  function Occurrences(s: seq<string>, x: string): nat {
    if |s| == 0 then 0
    else Occurrences(s[..|s| - 1], x) + (if s[|s| - 1] == x then 1 else 0)
  }

  lemma {:induction false} OccurrencesPositive(s: seq<string>, x: string)
    ensures Occurrences(s, x) > 0 <==> x in s
  {
    if |s| > 0 {
      OccurrencesPositive(s[..|s| - 1], x);
      assert s == s[..|s| - 1] + [s[|s| - 1]];
    }
  }

  /** The labels a distribution has a slice for. */
  function LabelsOf(d: seq<LabelCount>): set<string> {
    if |d| == 0 then {} else {d[0].sentiment} + LabelsOf(d[1..])
  }

  /** No label has two slices. */
  predicate Distinct(d: seq<LabelCount>) {
    |d| == 0 || (d[0].sentiment !in LabelsOf(d[1..]) && Distinct(d[1..]))
  }

  /** Every slice counts at least one record. */
  predicate Positive(d: seq<LabelCount>) {
    forall i :: 0 <= i < |d| ==> d[i].count >= 1
  }

  /** The count of the slice for `x`, 0 if there is none. */
  function CountOf(d: seq<LabelCount>, x: string): nat {
    if |d| == 0 then 0
    else if d[0].sentiment == x then d[0].count
    else CountOf(d[1..], x)
  }

  /** The sum of all slices. */
  function Total(d: seq<LabelCount>): nat {
    if |d| == 0 then 0 else d[0].count + Total(d[1..])
  }

  lemma {:induction false} CountOfAbsent(d: seq<LabelCount>, x: string)
    requires x !in LabelsOf(d)
    ensures CountOf(d, x) == 0
  {
    if |d| > 0 {
      CountOfAbsent(d[1..], x);
    }
  }

  /** Counts one more record labelled `x`. */
  function Bump(d: seq<LabelCount>, x: string): (r: seq<LabelCount>)
    requires Distinct(d) && Positive(d)
    ensures Distinct(r) && Positive(r)
    ensures LabelsOf(r) == LabelsOf(d) + {x}
    ensures Total(r) == Total(d) + 1
    ensures forall y :: CountOf(r, y) == CountOf(d, y) + (if y == x then 1 else 0)
  {
    if |d| == 0 then
      [LabelCount(x, 1)]
    else if d[0].sentiment == x then
      assert ([LabelCount(x, d[0].count + 1)] + d[1..])[1..] == d[1..];
      CountOfAbsent(d[1..], x);
      [LabelCount(x, d[0].count + 1)] + d[1..]
    else
      var rest := Bump(d[1..], x);
      assert ([d[0]] + rest)[1..] == rest;
      [d[0]] + rest
  }

  /** `df['sentiment'].value_counts()`: one slice per distinct label, in order
      of first occurrence. */
  function ValueCounts(labels: seq<string>): (d: seq<LabelCount>)
    ensures Distinct(d) && Positive(d)
    ensures forall y :: y in LabelsOf(d) <==> y in labels
    ensures forall y :: CountOf(d, y) == Occurrences(labels, y)
    ensures Total(d) == |labels|
  {
    if |labels| == 0 then []
    else
      var init := labels[..|labels| - 1];
      assert labels == init + [labels[|labels| - 1]];
      Bump(ValueCounts(init), labels[|labels| - 1])
  }

  // ---------------------------------------------------------------- recent concerns

  predicate IsNegative(r: FeedbackRecord) {
    r.sentiment == NegativeLabel
  }

  /** `df[df['sentiment'] == 'negative']`: the negative records, in log order. */
  function Negatives(fb: seq<FeedbackRecord>): (r: seq<FeedbackRecord>)
    ensures |r| <= |fb|
    ensures forall i :: 0 <= i < |r| ==> IsNegative(r[i])
  {
    if |fb| == 0 then []
    else
      var last := fb[|fb| - 1];
      Negatives(fb[..|fb| - 1]) + (if IsNegative(last) then [last] else [])
  }

  /** The filter keeps every negative record and nothing else, and there are
      as many of them as the label column has "negative" entries. */
  lemma {:induction false} NegativesMembers(fb: seq<FeedbackRecord>)
    ensures |Negatives(fb)| == Occurrences(Labels(fb), NegativeLabel)
    ensures forall x :: x in Negatives(fb) <==> x in fb && IsNegative(x)
  {
    if |fb| > 0 {
      var init := fb[..|fb| - 1];
      var last := fb[|fb| - 1];
      NegativesMembers(init);
      assert fb == init + [last];
      assert Labels(fb)[..|fb| - 1] == Labels(init);
    }
  }

  /** Filtering keeps the log's order: the negatives of a concatenation are
      the negatives of each part, one after the other. */
  lemma {:induction false} NegativesAppend(a: seq<FeedbackRecord>, b: seq<FeedbackRecord>)
    ensures Negatives(a + b) == Negatives(a) + Negatives(b)
  {
    if |b| == 0 {
      assert a + b == a;
    } else {
      var init := b[..|b| - 1];
      var last := b[|b| - 1];
      assert b == init + [last];
      assert a + b == (a + init) + [last];
      var tail := if IsNegative(last) then [last] else [];
      assert (a + b)[..|a + b| - 1] == a + init;
      assert Negatives(a + b) == Negatives(a + init) + tail;
      assert Negatives(b) == Negatives(init) + tail;
      NegativesAppend(a, init);
    }
  }

  /** `s.tail(k)`: the last `k` elements, or all of them when there are fewer. */
  function TakeLast<T>(s: seq<T>, k: nat): (r: seq<T>)
    ensures |r| == Min(k, |s|)
    ensures r == s[|s| - |r|..]
  {
    s[|s| - Min(k, |s|)..]
  }

  /** The recent concerns shown on the dashboard. */
  function RecentConcerns(fb: seq<FeedbackRecord>): (r: seq<FeedbackRecord>)
    ensures |r| <= RecentLimit
    ensures |r| == Min(RecentLimit, Occurrences(Labels(fb), NegativeLabel))
    ensures forall i :: 0 <= i < |r| ==> IsNegative(r[i])
    ensures |r| <= |Negatives(fb)| && r == Negatives(fb)[|Negatives(fb)| - |r|..]
  {
    NegativesMembers(fb);
    TakeLast(Negatives(fb), RecentLimit)
  }

  /** A reference definition of the recent concerns: walk the log backwards
      and collect negative records until `k` are found. */
  function LastNegatives(fb: seq<FeedbackRecord>, k: nat): seq<FeedbackRecord> {
    if |fb| == 0 || k == 0 then []
    else if IsNegative(fb[|fb| - 1]) then LastNegatives(fb[..|fb| - 1], k - 1) + [fb[|fb| - 1]]
    else LastNegatives(fb[..|fb| - 1], k)
  }

  /** Filtering then taking the tail is the same as collecting backwards. */
  lemma {:induction false} TakeLastNegatives(fb: seq<FeedbackRecord>, k: nat)
    ensures TakeLast(Negatives(fb), k) == LastNegatives(fb, k)
  {
    if |fb| == 0 || k == 0 {
    } else {
      var init := fb[..|fb| - 1];
      var last := fb[|fb| - 1];
      TakeLastNegatives(init, if IsNegative(last) then k - 1 else k);
      if IsNegative(last) {
        var n := Negatives(init);
        assert Negatives(fb) == n + [last];
        assert TakeLast(n + [last], k) == TakeLast(n, k - 1) + [last];
      }
    }
  }

  /** The recent concerns are exactly the last five negative records, oldest first. */
  lemma RecentConcernsAreLastNegatives(fb: seq<FeedbackRecord>)
    ensures RecentConcerns(fb) == LastNegatives(fb, RecentLimit)
  {
    TakeLastNegatives(fb, RecentLimit);
  }

  // ---------------------------------------------------------------- the view

  /** `dashboard()`: the empty state when there is no feedback, otherwise the
      total, the distribution and the recent concerns. */
  function Dashboard(fb: seq<FeedbackRecord>): (v: View)
    ensures |fb| == 0 ==> v == View(0, None, [])
    ensures v.totalFeedback == |fb|
    ensures |fb| > 0 ==> v.sentimentChart.Some?
    ensures v.sentimentChart.Some? ==>
      var d := v.sentimentChart.value;
      && Distinct(d) && Positive(d) && Total(d) == |fb|
      && (forall i :: 0 <= i < |fb| ==> fb[i].sentiment in LabelsOf(d))
      && (forall y :: CountOf(d, y) == Occurrences(Labels(fb), y))
    ensures |v.recentConcerns| <= RecentLimit
    ensures forall i :: 0 <= i < |v.recentConcerns| ==> IsNegative(v.recentConcerns[i])
    ensures v.recentConcerns == LastNegatives(fb, RecentLimit)
  {
    if |fb| == 0 then
      View(0, None, [])
    else
      RecentConcernsAreLastNegatives(fb);
      assert forall i :: 0 <= i < |fb| ==> Labels(fb)[i] in Labels(fb);
      View(|fb|, Some(ValueCounts(Labels(fb))), RecentConcerns(fb))
  }

  /** The chart has a slice for a label exactly when some record carries it. */
  lemma ChartLabelsPresent(fb: seq<FeedbackRecord>, y: string)
    requires |fb| > 0
    ensures CountOf(Dashboard(fb).sentimentChart.value, y) > 0 <==> exists i :: 0 <= i < |fb| && fb[i].sentiment == y
  {
    OccurrencesPositive(Labels(fb), y);
    if y in Labels(fb) {
      var i :| 0 <= i < |fb| && Labels(fb)[i] == y;
      assert fb[i].sentiment == y;
    }
  }

  /** The number of recent concerns is the negative slice of the chart,
      capped at five. */
  lemma RecentConcernsMatchChart(fb: seq<FeedbackRecord>)
    requires |fb| > 0
    ensures var v := Dashboard(fb);
      |v.recentConcerns| == Min(RecentLimit, CountOf(v.sentimentChart.value, NegativeLabel))
  {
    RecentConcernsAreLastNegatives(fb);
  }
}
