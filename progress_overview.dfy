/** The dashboard summary of src/components/dashboard/ProgressOverview.jsx:
    the pain trend between the two newest sessions, the rounded adherence
    score with its message, and sessions grouped by week. */
module ProgressOverview {
  import opened Js
  import opened Text
  import Seqs
  import opened Progress

  datatype Trend = Improving | Declining | Stable

  /** getProgressTrend: the newest session's pain ([0]) against the one
      before ([1]), absent values as 0; no trend with fewer than two. */
  function GetProgressTrend(progress: seq<ProgressRecord>): (r: Option<Trend>)
    ensures r.None? <==> |progress| < 2
    ensures |progress| >= 2 ==>
      (r == Some(Improving) <==> PainOrZero(progress[0]) < PainOrZero(progress[1]))
      && (r == Some(Declining) <==> PainOrZero(progress[0]) > PainOrZero(progress[1]))
      && (r == Some(Stable) <==> PainOrZero(progress[0]) == PainOrZero(progress[1]))
  {
    if |progress| < 2 then None
    else
      var latest, previous := PainOrZero(progress[0]), PainOrZero(progress[1]);
      if latest < previous then Some(Improving)
      else if latest > previous then Some(Declining)
      else Some(Stable)
  }

  /** getAdherenceScore: the rounded mean adherence, 0 without sessions. */
  function GetAdherenceScore(progress: seq<ProgressRecord>): int {
    MeanRounded(Adherences(progress))
  }

  /** The message under the adherence bar. */
  function AdherenceMessage(score: int): (r: string)
    ensures score >= 80 ==> r == "Excellent progress!"
    ensures 60 <= score < 80 ==> r == "Good consistency!"
    ensures score < 60 ==> r == "Keep building the habit!"
  {
    if score >= 80 then "Excellent progress!"
    else if score >= 60 then "Good consistency!"
    else "Keep building the habit!"
  }

  /** The bucket key `Week ${week_number}`; an absent number prints as "undefined". */
  function WeekLabel(week: Option<int>): string {
    "Week " + (if week.Some? then IntToString(week.value) else "undefined")
  }

  /** Distinct week numbers get distinct keys, so grouping by key is
      grouping by week number. */
  lemma WeekLabelInjective(a: Option<int>, b: Option<int>)
    requires WeekLabel(a) == WeekLabel(b)
    ensures a == b
  {
    var sa := WeekLabel(a)[5..];
    var sb := WeekLabel(b)[5..];
    assert sa == sb;
    if a.Some? { IntToStringNumber(a.value); }
    if b.Some? { IntToStringNumber(b.value); }
    assert ToNumber(Str("undefined")) == NaN by {
      assert !IsDecimal("undefined") by { assert "undefined"[0] == 'u'; }
      assert !IsDecimal("undefined"[1..]) by { assert "undefined"[1..][0] == 'n'; }
    }
  }

  function Weeks(p: seq<ProgressRecord>): (r: seq<Option<int>>)
    ensures |r| == |p| && forall i :: 0 <= i < |p| ==> r[i] == p[i].weekNumber
  {
    seq(|p|, i requires 0 <= i < |p| => p[i].weekNumber)
  }

  datatype Bucket = Bucket(sessions: nat, totalPain: int, totalAdherence: int)

  const EMPTY_BUCKET: Bucket := Bucket(0, 0, 0)

  function Add(b: Bucket, r: ProgressRecord): Bucket {
    Bucket(b.sessions + 1, b.totalPain + PainOrZero(r), b.totalAdherence + AdherenceOrZero(r))
  }

  /** What the forEach accumulates for week `w` over the sessions `p`. */
  function BucketOf(p: seq<ProgressRecord>, w: Option<int>): Bucket
    decreases |p|
  {
    if p == [] then EMPTY_BUCKET
    else
      var b := BucketOf(p[..|p| - 1], w);
      if p[|p| - 1].weekNumber == w then Add(b, p[|p| - 1]) else b
  }

  /** The weeks in order of first appearance (the key order of `weeklyData`). */
  function WeekOrder(p: seq<ProgressRecord>): seq<Option<int>> {
    Seqs.Dedup(Weeks(p))
  }

  datatype WeekSummary = WeekSummary(week: string, avgPain: int, avgAdherence: int)

  /** The entry the `map` callback builds from one bucket. No listed bucket is
      empty (BucketNonEmpty); the zeros stand for the NaN that dividing by no
      sessions would give. */
  function SummaryOf(week: string, b: Bucket): WeekSummary {
    if b.sessions > 0 then
      WeekSummary(week, Seqs.RoundDiv(b.totalPain, b.sessions), Seqs.RoundDiv(b.totalAdherence, b.sessions))
    else WeekSummary(week, 0, 0)
  }

  function Summarize(p: seq<ProgressRecord>, w: Option<int>): WeekSummary {
    SummaryOf(WeekLabel(w), BucketOf(p, w))
  }

  /** The `map` callback over the week keys. */
  function Summarizer(p: seq<ProgressRecord>): Option<int> -> WeekSummary {
    w => Summarize(p, w)
  }

  /** The summaries of the listed weeks, in the order given. */
  function Summaries(p: seq<ProgressRecord>, order: seq<Option<int>>): (r: seq<WeekSummary>)
    ensures |r| == |order|
  {
    Seqs.Map(order, Summarizer(p))
  }

  /** getWeeklyProgress as specified: one summary per week, in the reverse
      of the order in which the weeks first appear. */
  function WeeklyProgress(p: seq<ProgressRecord>): (r: seq<WeekSummary>)
    ensures |r| == |WeekOrder(p)|
  {
    Seqs.Reverse(Summaries(p, WeekOrder(p)))
  }

  /** Every week in the key order is the week of some session. */
  lemma OrderedWeeksOccur(p: seq<ProgressRecord>)
    ensures forall j :: 0 <= j < |WeekOrder(p)| ==> WeekOrder(p)[j] in Weeks(p)
  {
  }

  /** A week that occurs has at least one session in its bucket. */
  lemma {:induction false} BucketNonEmpty(p: seq<ProgressRecord>, w: Option<int>)
    requires w in Weeks(p)
    ensures BucketOf(p, w).sessions > 0
    decreases |p|
  {
    var init := p[..|p| - 1];
    if p[|p| - 1].weekNumber != w {
      var k :| 0 <= k < |p| && Weeks(p)[k] == w;
      assert Weeks(init)[k] == w;
      BucketNonEmpty(init, w);
    }
  }

  /** A week that does not occur has an empty bucket. */
  lemma {:induction false} BucketAbsent(p: seq<ProgressRecord>, w: Option<int>)
    requires w !in Weeks(p)
    ensures BucketOf(p, w) == EMPTY_BUCKET
    decreases |p|
  {
    if p != [] {
      var init := p[..|p| - 1];
      assert Weeks(init) == Weeks(p)[..|p| - 1];
      BucketAbsent(init, w);
    }
  }

  /** Each bucket's adherence total stays within its session count times
      the range of the values. */
  lemma {:induction false} BucketWithin(p: seq<ProgressRecord>, w: Option<int>, lo: int, hi: int)
    requires forall i :: 0 <= i < |p| ==> lo <= AdherenceOrZero(p[i]) <= hi
    ensures lo * BucketOf(p, w).sessions <= BucketOf(p, w).totalAdherence <= hi * BucketOf(p, w).sessions
    decreases |p|
  {
    if p != [] {
      var init := p[..|p| - 1];
      BucketWithin(init, w, lo, hi);
      var b := BucketOf(init, w);
      if p[|p| - 1].weekNumber == w {
        assert lo * (b.sessions + 1) == lo * b.sessions + lo;
        assert hi * (b.sessions + 1) == hi * b.sessions + hi;
      }
    }
  }

  /** With adherence scores in 0..100, every week's average is in 0..100. */
  lemma WeeklyAdherenceIsPercent(p: seq<ProgressRecord>, i: nat)
    requires forall k :: 0 <= k < |p| ==> 0 <= AdherenceOrZero(p[k]) <= 100
    requires i < |WeeklyProgress(p)|
    ensures 0 <= WeeklyProgress(p)[i].avgAdherence <= 100
  {
    WeeklyProgressAt(p, i);
    OrderedWeeksOccur(p);
    SummaryAdherenceIsPercent(p, WeekOrder(p)[|WeekOrder(p)| - 1 - i]);
  }

  /** The i-th listed summary is that of the i-th week from the end of the key order. */
  lemma WeeklyProgressAt(p: seq<ProgressRecord>, i: nat)
    requires i < |WeeklyProgress(p)|
    ensures WeeklyProgress(p)[i] == Summarize(p, WeekOrder(p)[|WeekOrder(p)| - 1 - i])
  {
    Seqs.ReverseMapAt(WeekOrder(p), Summarizer(p), i);
  }

  /** The summaries are labelled with the weeks in reverse order of first
      appearance. */
  lemma WeeklyProgressLabels(p: seq<ProgressRecord>)
    ensures forall i :: 0 <= i < |WeeklyProgress(p)| ==>
      WeeklyProgress(p)[i].week == WeekLabel(WeekOrder(p)[|WeekOrder(p)| - 1 - i])
  {
    forall i | 0 <= i < |WeeklyProgress(p)|
      ensures WeeklyProgress(p)[i].week == WeekLabel(WeekOrder(p)[|WeekOrder(p)| - 1 - i])
    {
      WeeklyProgressAt(p, i);
    }
  }

  /** One week's average adherence is a percentage. */
  lemma SummaryAdherenceIsPercent(p: seq<ProgressRecord>, w: Option<int>)
    requires forall k :: 0 <= k < |p| ==> 0 <= AdherenceOrZero(p[k]) <= 100
    requires w in Weeks(p)
    ensures 0 <= Summarize(p, w).avgAdherence <= 100
  {
    BucketNonEmpty(p, w);
    BucketWithin(p, w, 0, 100);
    var b := BucketOf(p, w);
    Seqs.RoundDivBounds(b.totalAdherence, b.sessions, 0, 100);
  }

  /** The session counts of the buckets named in `weeks`. */
  function CountOver(weeks: seq<Option<int>>, p: seq<ProgressRecord>): nat {
    if weeks == [] then 0 else BucketOf(p, weeks[0]).sessions + CountOver(weeks[1..], p)
  }

  /** Every session lands in exactly one bucket: the counts over all weeks
      add up to the number of sessions. */
  lemma {:induction false} CountsCoverSessions(p: seq<ProgressRecord>)
    ensures CountOver(WeekOrder(p), p) == |p|
    decreases |p|
  {
    if p != [] {
      var init, x := p[..|p| - 1], p[|p| - 1];
      assert p == init + [x];
      assert Weeks(p) == Weeks(init) + [x.weekNumber];
      Seqs.DedupSnoc(Weeks(init), x.weekNumber);
      var d := WeekOrder(init);
      CountsCoverSessions(init);
      if x.weekNumber in d {
        CountOverAdd(d, init, x);
      } else {
        CountOverSkip(d, init, x);
        CountOverAppend(d, [x.weekNumber], p);
        BucketAbsent(init, x.weekNumber);
        assert CountOver([x.weekNumber], p) == 1;
      }
    }
  }

  /** Adding a session of a listed week adds exactly one to the counts. */
  lemma {:induction false} CountOverAdd(weeks: seq<Option<int>>, p: seq<ProgressRecord>, x: ProgressRecord)
    requires Seqs.NoDuplicates(weeks) && x.weekNumber in weeks
    ensures CountOver(weeks, p + [x]) == CountOver(weeks, p) + 1
  {
    assert (p + [x])[..|p|] == p;
    if weeks[0] == x.weekNumber {
      assert x.weekNumber !in weeks[1..];
      CountOverSkip(weeks[1..], p, x);
    } else {
      CountOverAdd(weeks[1..], p, x);
    }
  }

  /** Adding a session of an unlisted week leaves the counts alone. */
  lemma {:induction false} CountOverSkip(weeks: seq<Option<int>>, p: seq<ProgressRecord>, x: ProgressRecord)
    requires x.weekNumber !in weeks
    ensures CountOver(weeks, p + [x]) == CountOver(weeks, p)
  {
    assert (p + [x])[..|p|] == p;
    if weeks != [] {
      CountOverSkip(weeks[1..], p, x);
    }
  }

  lemma {:induction false} CountOverAppend(a: seq<Option<int>>, b: seq<Option<int>>, p: seq<ProgressRecord>)
    ensures CountOver(a + b, p) == CountOver(a, p) + CountOver(b, p)
  {
    if a == [] {
      assert a + b == b;
    } else {
      assert (a + b)[1..] == a[1..] + b;
      CountOverAppend(a[1..], b, p);
    }
  }

  /** getWeeklyProgress: the forEach fills `weeklyData` under the "Week n"
      keys, which keep their insertion order; the summaries are then
      listed in reverse. */
  method GetWeeklyProgress(progress: seq<ProgressRecord>) returns (r: seq<WeekSummary>)
    ensures r == WeeklyProgress(progress)
  {
    forall a, b | WeekLabel(a) == WeekLabel(b)
      ensures a == b
    {
      WeekLabelInjective(a, b);
    }
    var weeklyData: map<string, Bucket> := map[];
    ghost var order: seq<Option<int>> := [];
    var keys: seq<string> := [];
    var i := 0;
    while i < |progress|
      invariant 0 <= i <= |progress|
      invariant GroupedSoFar(progress[..i], order, keys, weeklyData, WeekLabel)
    {
      order, keys, weeklyData := GroupStep(progress[..i], progress[i], order, keys, weeklyData, WeekLabel);
      assert progress[..i + 1] == progress[..i] + [progress[i]];
      i := i + 1;
    }
    assert progress[..i] == progress;
    var summaries := seq(|keys|, j requires 0 <= j < |keys| && keys[j] in weeklyData =>
      SummaryOf(keys[j], weeklyData[keys[j]]));
    SummariesAgree(progress, order, keys, weeklyData);
    r := Seqs.Reverse(summaries);
  }

  /** The loop invariant: `order` lists the weeks met so far, `keys` their
      labels, and `weeklyData` holds each week's bucket under its label. */
  ghost predicate GroupedSoFar(p: seq<ProgressRecord>, order: seq<Option<int>>, keys: seq<string>,
                               weeklyData: map<string, Bucket>, labelOf: Option<int> -> string)
  {
    order == WeekOrder(p)
    && |keys| == |order| && (forall j :: 0 <= j < |keys| ==> keys[j] == labelOf(order[j]))
    && (forall k :: k in weeklyData <==> k in keys)
    && (forall j :: 0 <= j < |order| ==> weeklyData[keys[j]] == BucketOf(p, order[j]))
  }

  /** One forEach iteration. */
  method GroupStep(p: seq<ProgressRecord>, session: ProgressRecord, ghost order: seq<Option<int>>,
                   keys: seq<string>, weeklyData: map<string, Bucket>, labelOf: Option<int> -> string)
    returns (ghost order': seq<Option<int>>, keys': seq<string>, weeklyData': map<string, Bucket>)
    requires GroupedSoFar(p, order, keys, weeklyData, labelOf)
    requires forall a, b :: labelOf(a) == labelOf(b) ==> a == b
    ensures GroupedSoFar(p + [session], order', keys', weeklyData', labelOf)
  {
    var week := labelOf(session.weekNumber);
    ghost var known := week in weeklyData;
    order', keys', weeklyData' := order, keys, weeklyData;
    if week !in weeklyData {
      weeklyData' := weeklyData'[week := EMPTY_BUCKET];
      order' := order' + [session.weekNumber];
      keys' := keys' + [week];
    }
    weeklyData' := weeklyData'[week := Add(weeklyData'[week], session)];
    if known {
      StepKnownWeek(p, session, order, keys, weeklyData, labelOf);
    } else {
      StepNewWeek(p, session, order, keys, weeklyData, labelOf);
    }
  }

  /** The key order after one more session: its week is appended if new. */
  lemma WeekOrderSnoc(p: seq<ProgressRecord>, x: ProgressRecord)
    ensures WeekOrder(p + [x]) == if x.weekNumber in Weeks(p) then WeekOrder(p) else WeekOrder(p) + [x.weekNumber]
  {
    assert Weeks(p + [x]) == Weeks(p) + [x.weekNumber];
    Seqs.DedupSnoc(Weeks(p), x.weekNumber);
  }

  /** A session of a week already grouped adds to that week's bucket. */
  lemma StepKnownWeek(p: seq<ProgressRecord>, session: ProgressRecord, order: seq<Option<int>>,
                      keys: seq<string>, weeklyData: map<string, Bucket>, labelOf: Option<int> -> string)
    requires GroupedSoFar(p, order, keys, weeklyData, labelOf)
    requires forall a, b :: labelOf(a) == labelOf(b) ==> a == b
    requires labelOf(session.weekNumber) in weeklyData
    ensures var week := labelOf(session.weekNumber);
      GroupedSoFar(p + [session], order, keys, weeklyData[week := Add(weeklyData[week], session)], labelOf)
  {
    var week := labelOf(session.weekNumber);
    KnownWeekOrder(p, session, order, keys, weeklyData, labelOf);
    forall j | 0 <= j < |order|
      ensures weeklyData[week := Add(weeklyData[week], session)][keys[j]] == BucketOf(p + [session], order[j])
    {
      KnownWeekBucket(p, session, order, keys, weeklyData, labelOf, j);
    }
  }

  /** A session of a grouped week leaves the key order alone. */
  lemma KnownWeekOrder(p: seq<ProgressRecord>, session: ProgressRecord, order: seq<Option<int>>,
                       keys: seq<string>, weeklyData: map<string, Bucket>, labelOf: Option<int> -> string)
    requires GroupedSoFar(p, order, keys, weeklyData, labelOf)
    requires forall a, b :: labelOf(a) == labelOf(b) ==> a == b
    requires labelOf(session.weekNumber) in weeklyData
    ensures WeekOrder(p + [session]) == order
  {
    var k :| 0 <= k < |keys| && keys[k] == labelOf(session.weekNumber);
    assert order[k] == session.weekNumber;
    WeekOrderSnoc(p, session);
  }

  /** After a session of a grouped week, each key still holds its week's bucket. */
  lemma KnownWeekBucket(p: seq<ProgressRecord>, session: ProgressRecord, order: seq<Option<int>>,
                        keys: seq<string>, weeklyData: map<string, Bucket>, labelOf: Option<int> -> string, j: nat)
    requires GroupedSoFar(p, order, keys, weeklyData, labelOf)
    requires forall a, b :: labelOf(a) == labelOf(b) ==> a == b
    requires labelOf(session.weekNumber) in weeklyData
    requires j < |order|
    ensures var week := labelOf(session.weekNumber);
      weeklyData[week := Add(weeklyData[week], session)][keys[j]] == BucketOf(p + [session], order[j])
  {
    BucketSnoc(p, session, order[j]);
  }

  /** A session of a new week opens a bucket for it, appended to the keys. */
  lemma StepNewWeek(p: seq<ProgressRecord>, session: ProgressRecord, order: seq<Option<int>>,
                    keys: seq<string>, weeklyData: map<string, Bucket>, labelOf: Option<int> -> string)
    requires GroupedSoFar(p, order, keys, weeklyData, labelOf)
    requires labelOf(session.weekNumber) !in weeklyData
    ensures var week := labelOf(session.weekNumber);
      GroupedSoFar(p + [session], order + [session.weekNumber], keys + [week],
                   weeklyData[week := EMPTY_BUCKET][week := Add(EMPTY_BUCKET, session)], labelOf)
  {
    var week := labelOf(session.weekNumber);
    NewWeekOrder(p, session, order, keys, weeklyData, labelOf);
    BucketAbsent(p, session.weekNumber);
    var order', keys' := order + [session.weekNumber], keys + [week];
    var data := weeklyData[week := EMPTY_BUCKET][week := Add(EMPTY_BUCKET, session)];
    forall j | 0 <= j < |order'|
      ensures data[keys'[j]] == BucketOf(p + [session], order'[j])
    {
      BucketSnoc(p, session, order'[j]);
    }
  }

  /** A session of a week not yet grouped appends that week to the key order. */
  lemma NewWeekOrder(p: seq<ProgressRecord>, session: ProgressRecord, order: seq<Option<int>>,
                     keys: seq<string>, weeklyData: map<string, Bucket>, labelOf: Option<int> -> string)
    requires GroupedSoFar(p, order, keys, weeklyData, labelOf)
    requires labelOf(session.weekNumber) !in weeklyData
    ensures session.weekNumber !in Weeks(p)
    ensures WeekOrder(p + [session]) == order + [session.weekNumber]
  {
    forall k | 0 <= k < |order|
      ensures order[k] != session.weekNumber
    {
      assert keys[k] in weeklyData;
    }
    WeekOrderSnoc(p, session);
  }

  /** One more session adds to its own week's bucket only. */
  lemma BucketSnoc(p: seq<ProgressRecord>, x: ProgressRecord, w: Option<int>)
    ensures BucketOf(p + [x], w) == if x.weekNumber == w then Add(BucketOf(p, w), x) else BucketOf(p, w)
  {
    var next := p + [x];
    assert next[..|next| - 1] == p;
  }

  /** After the loop, reading the buckets in key order gives the specified
      summaries. */
  lemma SummariesAgree(p: seq<ProgressRecord>, order: seq<Option<int>>, keys: seq<string>,
                       weeklyData: map<string, Bucket>)
    requires GroupedSoFar(p, order, keys, weeklyData, WeekLabel)
    ensures forall j :: 0 <= j < |keys| ==> keys[j] in weeklyData
    ensures seq(|keys|, j requires 0 <= j < |keys| && keys[j] in weeklyData =>
              SummaryOf(keys[j], weeklyData[keys[j]]))
         == Summaries(p, order)
  {
  }

  /** Only the last four weeks of the list are shown (`slice(-4)`). */
  function ShownWeeks(weekly: seq<WeekSummary>): (r: seq<WeekSummary>)
    ensures |r| == if |weekly| < 4 then |weekly| else 4
    ensures r == weekly[|weekly| - |r|..]
  {
    if |weekly| <= 4 then weekly else weekly[|weekly| - 4..]
  }
}
