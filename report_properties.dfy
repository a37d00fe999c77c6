/** What the session report promises: no report without turns, one turn per log entry, an
    average score and category averages within the scorer's bounds, strength and weakness
    as the first maximal and minimal categories, and the band order of the helpers. */
module ReportProperties {
  import opened Basics
  import opened Scorer
  import opened ScorerProperties
  import opened Report

  /** The average score is the exact mean of the turn scores, and each category average
      the exact mean of that category's points. */
  lemma AverageScoreIsMean(log: seq<LogEntry>, trust: int)
    requires log != []
    ensures var r := FinalReport(log, trust).value;
      && r.avgScore == Mean(ScoreTotal(log), |log|)
      && forall c :: r.avgBreakdown[c] == Mean(CategoryTotal(log, c), |log|)
  {
  }

  /** Scores in [-15, 100] add up to a total in [-15 n, 100 n]. */
  lemma {:induction false} ScoreTotalBounds(log: seq<LogEntry>)
    requires forall k :: 0 <= k < |log| ==> -15 <= log[k].feedback.score <= 100
    ensures -15 * |log| <= ScoreTotal(log) <= 100 * |log|
    decreases |log|
  {
    if log != [] {
      var init := log[..|log| - 1];
      forall k | 0 <= k < |init| ensures -15 <= init[k].feedback.score <= 100 {
        assert init[k] == log[k];
      }
      ScoreTotalBounds(init);
    }
  }

  /** Category points within [0, cap] add up to a total within [0, cap n]. */
  lemma {:induction false} CategoryTotalBounds(log: seq<LogEntry>, c: Category)
    requires forall k :: 0 <= k < |log| ==> 0 <= Points(log[k].feedback.breakdown, c) <= Cap(c)
    ensures 0 <= CategoryTotal(log, c) <= Cap(c) * |log|
    decreases |log|
  {
    if log != [] {
      var init := log[..|log| - 1];
      forall k | 0 <= k < |init| ensures 0 <= Points(init[k].feedback.breakdown, c) <= Cap(c) {
        assert init[k] == log[k];
      }
      CategoryTotalBounds(init, c);
    }
  }

  /** Feedback within the scorer's bounds: each category in [0, cap], the score in [-15, 100]. */
  predicate InScorerBounds(fb: Feedback)
  {
    && -15 <= fb.score <= 100
    && 0 <= fb.breakdown.microAgent <= MicroAgentCap
    && 0 <= fb.breakdown.stateManagement <= StateManagementCap
    && 0 <= fb.breakdown.organicLooping <= OrganicLoopingCap
    && 0 <= fb.breakdown.humanInLoop <= HumanInLoopCap
  }

  /** The scorer's own feedback is within its bounds. */
  lemma ScorerFeedbackBounds(s: string)
    ensures InScorerBounds(ManagerFeedback(s))
  {
    CategoryCaps(s);
    ScoreRange(s);
  }

  /** A bounded mean: a total within [lo n, hi n] over n turns averages within [lo, hi]. */
  lemma MeanWithin(total: int, n: int, lo: int, hi: int)
    requires n > 0 && lo * n <= total <= hi * n
    ensures lo as real <= Mean(total, n) <= hi as real
  {
    assert (lo * n) as real == lo as real * n as real;
    assert (hi * n) as real == hi as real * n as real;
  }

  /** A log of bounded feedback yields an average score within [-15, 100] and category
      averages within [0, cap]. */
  lemma ReportAveragesInRange(log: seq<LogEntry>, trust: int)
    requires log != []
    requires forall k :: 0 <= k < |log| ==> InScorerBounds(log[k].feedback)
    ensures var r := FinalReport(log, trust).value;
      && -15.0 <= r.avgScore <= 100.0
      && forall c :: c in r.avgBreakdown && 0.0 <= r.avgBreakdown[c] <= Cap(c) as real
  {
    var r := FinalReport(log, trust).value;
    assert r.avgScore == Mean(ScoreTotal(log), |log|);
    assert r.avgBreakdown == Averages(log);
    ScoreTotalBounds(log);
    MeanWithin(ScoreTotal(log), |log|, -15, 100);
    forall c ensures c in r.avgBreakdown && 0.0 <= r.avgBreakdown[c] <= Cap(c) as real {
      AllCategories(c);
      forall k | 0 <= k < |log| ensures 0 <= Points(log[k].feedback.breakdown, c) <= Cap(c) {
      }
      CategoryTotalBounds(log, c);
      MeanWithin(CategoryTotal(log, c), |log|, 0, Cap(c));
    }
  }

  /** The display names of the categories are distinct. */
  lemma CategoryNamesDistinct(c: Category, d: Category)
    ensures CategoryName(c) == CategoryName(d) <==> c == d
  {
  }

  /** max over the keys: the result is one of them, no key holds more, and every key
      before it holds strictly less (ties go to the earliest key). */
  lemma {:induction false} FirstMaxIsFirstLargest(cs: seq<Category>, avg: map<Category, real>)
    requires cs != [] && forall c: Category :: c in avg
    ensures FirstMax(cs, avg) in cs
    ensures forall c :: c in cs ==> avg[c] <= avg[FirstMax(cs, avg)]
    ensures exists k :: (0 <= k < |cs| && cs[k] == FirstMax(cs, avg)
      && forall j :: 0 <= j < k ==> avg[cs[j]] < avg[FirstMax(cs, avg)])
    decreases |cs|
  {
    var r := FirstMax(cs, avg);
    if |cs| == 1 {
      assert cs[0] == r;
      assert forall c :: c in cs ==> c == cs[0];
    } else {
      var tail := cs[1..];
      var m := FirstMax(tail, avg);
      FirstMaxIsFirstLargest(tail, avg);
      assert forall c :: c in cs ==> c == cs[0] || c in tail;
      if avg[cs[0]] >= avg[m] {
        assert r == cs[0];
      } else {
        assert r == m;
        var k :| 0 <= k < |tail| && tail[k] == m && forall j :: 0 <= j < k ==> avg[tail[j]] < avg[m];
        assert cs[k + 1] == r;
        forall j | 0 <= j < k + 1 ensures avg[cs[j]] < avg[r] {
          if j > 0 {
            assert cs[j] == tail[j - 1];
          }
        }
      }
    }
  }

  /** min over the keys: the result is one of them, no key holds less, and every key
      before it holds strictly more (ties go to the earliest key). */
  lemma {:induction false} FirstMinIsFirstSmallest(cs: seq<Category>, avg: map<Category, real>)
    requires cs != [] && forall c: Category :: c in avg
    ensures FirstMin(cs, avg) in cs
    ensures forall c :: c in cs ==> avg[FirstMin(cs, avg)] <= avg[c]
    ensures exists k :: (0 <= k < |cs| && cs[k] == FirstMin(cs, avg)
      && forall j :: 0 <= j < k ==> avg[FirstMin(cs, avg)] < avg[cs[j]])
    decreases |cs|
  {
    var r := FirstMin(cs, avg);
    if |cs| == 1 {
      assert cs[0] == r;
      assert forall c :: c in cs ==> c == cs[0];
    } else {
      var tail := cs[1..];
      var m := FirstMin(tail, avg);
      FirstMinIsFirstSmallest(tail, avg);
      assert forall c :: c in cs ==> c == cs[0] || c in tail;
      if avg[cs[0]] <= avg[m] {
        assert r == cs[0];
      } else {
        assert r == m;
        var k :| 0 <= k < |tail| && tail[k] == m && forall j :: 0 <= j < k ==> avg[m] < avg[tail[j]];
        assert cs[k + 1] == r;
        forall j | 0 <= j < k + 1 ensures avg[r] < avg[cs[j]] {
          if j > 0 {
            assert cs[j] == tail[j - 1];
          }
        }
      }
    }
  }

  /** When the first largest and the first smallest average are the same category, all
      four averages are equal. */
  lemma SameExtremesAllEqual(avg: map<Category, real>)
    requires forall c: Category :: c in avg
    ensures FirstMax(Categories, avg) == FirstMin(Categories, avg) ==> forall c, d :: avg[c] == avg[d]
  {
    if FirstMax(Categories, avg) == FirstMin(Categories, avg) {
      FirstMaxIsFirstLargest(Categories, avg);
      FirstMinIsFirstSmallest(Categories, avg);
      forall c, d ensures avg[c] == avg[d] {
        AllCategories(c);
        AllCategories(d);
      }
    }
  }

  /** The strength and weakness name the first largest and first smallest category average;
      they coincide only when all four averages are equal. */
  lemma StrengthAndWeakness(log: seq<LogEntry>, trust: int)
    requires log != []
    ensures var r := FinalReport(log, trust).value;
      && r.strength == CategoryName(FirstMax(Categories, r.avgBreakdown))
      && r.weakness == CategoryName(FirstMin(Categories, r.avgBreakdown))
      && (r.strength == r.weakness ==> forall c, d :: r.avgBreakdown[c] == r.avgBreakdown[d])
  {
    var avg := Averages(log);
    var r := FinalReport(log, trust).value;
    assert r.avgBreakdown == avg;
    var s, w := FirstMax(Categories, avg), FirstMin(Categories, avg);
    assert r.strength == CategoryName(s) && r.weakness == CategoryName(w);
    CategoryNamesDistinct(s, w);
    SameExtremesAllEqual(avg);
  }

  /** The score class and the review-box class use the same 70/40 thresholds, so they
      always pick corresponding bands. */
  lemma ClassesAgree(score: int)
    ensures ScoreClass(score) == ScoreHigh <==> ReviewBoxClass(score) == ReviewBox
    ensures ScoreClass(score) == ScoreMid <==> ReviewBoxClass(score) == ReviewBoxWarning
    ensures ScoreClass(score) == ScoreLow <==> ReviewBoxClass(score) == ReviewBoxDanger
  {
  }
}
