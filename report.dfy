/** The end-of-session report (generate_final_report) and the small band helpers
    get_recommendation, get_score_class and get_review_box_class. Averages are exact
    rationals: the one-decimal rounding of the displayed values is not modelled. */
module Report {
  import opened Basics
  import opened Scorer

  /** One entry of the review log: the turn number, what the salesperson said, and the
      manager's feedback on it. */
  datatype LogEntry = LogEntry(turn: int, userInput: string, feedback: Feedback)

  /** The four rubric categories. */
  datatype Category = MicroAgentCategory | StateManagementCategory | OrganicLoopingCategory | HumanInLoopCategory

  /** The categories in the order the averages are declared; ties go to the earliest. */
  const Categories: seq<Category> := [MicroAgentCategory, StateManagementCategory, OrganicLoopingCategory, HumanInLoopCategory]

  /** Every category is listed. */
  lemma AllCategories(c: Category)
    ensures c in Categories
  {
    match c
    case MicroAgentCategory => assert Categories[0] == c;
    case StateManagementCategory => assert Categories[1] == c;
    case OrganicLoopingCategory => assert Categories[2] == c;
    case HumanInLoopCategory => assert Categories[3] == c;
  }

  /** The points a breakdown gives a category. */
  function Points(b: Breakdown, c: Category): int
  {
    match c
    case MicroAgentCategory => b.microAgent
    case StateManagementCategory => b.stateManagement
    case OrganicLoopingCategory => b.organicLooping
    case HumanInLoopCategory => b.humanInLoop
  }

  /** The cap of each category in the rubric. */
  function Cap(c: Category): int
  {
    match c
    case MicroAgentCategory => MicroAgentCap
    case StateManagementCategory => StateManagementCap
    case OrganicLoopingCategory => OrganicLoopingCap
    case HumanInLoopCategory => HumanInLoopCap
  }

  const MicroAgentName := "Micro-Agent Strategy"
  const StateManagementName := "動的ステート管理"
  const OrganicLoopingName := "有機的循環"
  const HumanInLoopName := "Human-in-the-Loop"

  /** The display name of each category (category_names). */
  function CategoryName(c: Category): string
  {
    match c
    case MicroAgentCategory => MicroAgentName
    case StateManagementCategory => StateManagementName
    case OrganicLoopingCategory => OrganicLoopingName
    case HumanInLoopCategory => HumanInLoopName
  }

  /** The report record (the keys of the returned dictionary). */
  datatype SessionReport = SessionReport(
    totalTurns: int,
    avgScore: real,
    finalTrust: int,
    avgBreakdown: map<Category, real>,
    strength: string,
    weakness: string,
    recommendation: string)

  /** The sum of the scores in the log. */
  function ScoreTotal(log: seq<LogEntry>): int
    decreases |log|
  {
    if log == [] then 0 else ScoreTotal(log[..|log| - 1]) + log[|log| - 1].feedback.score
  }

  /** The sum of one category's points in the log. */
  function CategoryTotal(log: seq<LogEntry>, c: Category): int
    decreases |log|
  {
    if log == [] then 0 else CategoryTotal(log[..|log| - 1], c) + Points(log[|log| - 1].feedback.breakdown, c)
  }

  /** An exact average: the total divided by the number of turns. */
  function Mean(total: int, n: int): real
    requires n > 0
  {
    total as real / n as real
  }

  /** The average of each category over a non-empty log. */
  function Averages(log: seq<LogEntry>): map<Category, real>
    requires log != []
  {
    map c: Category :: Mean(CategoryTotal(log, c), |log|)
  }

  /** Python's max(keys, key=avg.get): the first key holding the largest value. */
  function FirstMax(cs: seq<Category>, avg: map<Category, real>): Category
    requires cs != [] && forall c: Category :: c in avg
    decreases |cs|
  {
    if |cs| == 1 then cs[0]
    else
      var m := FirstMax(cs[1..], avg);
      if avg[cs[0]] >= avg[m] then cs[0] else m
  }

  /** Python's min(keys, key=avg.get): the first key holding the smallest value. */
  function FirstMin(cs: seq<Category>, avg: map<Category, real>): Category
    requires cs != [] && forall c: Category :: c in avg
    decreases |cs|
  {
    if |cs| == 1 then cs[0]
    else
      var m := FirstMin(cs[1..], avg);
      if avg[cs[0]] <= avg[m] then cs[0] else m
  }

  const GreatRecommendation := "素晴らしいパフォーマンスです！設計哲学を効果的に伝え、顧客の信頼を獲得できています。"
  const GoodTrendRecommendation := "良い傾向です。より具体的な事例や数字を交えることで、説得力を高められます。"
  const TailorRecommendation := "技術説明は適切ですが、顧客のペルソナに合わせたカスタマイズが必要です。"
  const PhilosophyRecommendation := "顧客との関係構築は良好ですが、設計哲学の説明をより強化してください。"
  const BasicsRecommendation := "Micro-Agent戦略、有機的循環、Human-in-the-Loopの概念を意識した説明を心がけてください。"

  /** get_recommendation: advice by average score and trust, bands checked in order; each
      of the five recommendations is returned exactly in its band. */
  function Recommendation(avgScore: real, trust: int): (r: string)
    ensures r == GreatRecommendation <==> avgScore >= 70.0 && trust >= 70
    ensures r == GoodTrendRecommendation <==> !(avgScore >= 70.0 && trust >= 70) && avgScore >= 50.0 && trust >= 50
    ensures r == TailorRecommendation <==> avgScore >= 50.0 && trust < 50
    ensures r == PhilosophyRecommendation <==> avgScore < 50.0 && trust >= 50
    ensures r == BasicsRecommendation <==> avgScore < 50.0 && trust < 50
  {
    RecommendationsDistinct();
    if avgScore >= 70.0 && trust >= 70 then GreatRecommendation
    else if avgScore >= 50.0 && trust >= 50 then GoodTrendRecommendation
    else if avgScore >= 50.0 then TailorRecommendation
    else if trust >= 50 then PhilosophyRecommendation
    else BasicsRecommendation
  }

  /** The five recommendations are pairwise different texts. */
  lemma RecommendationsDistinct()
    ensures GreatRecommendation != GoodTrendRecommendation && GreatRecommendation != TailorRecommendation
    ensures GreatRecommendation != PhilosophyRecommendation && GreatRecommendation != BasicsRecommendation
    ensures GoodTrendRecommendation != TailorRecommendation && GoodTrendRecommendation != PhilosophyRecommendation
    ensures GoodTrendRecommendation != BasicsRecommendation && TailorRecommendation != PhilosophyRecommendation
    ensures TailorRecommendation != BasicsRecommendation && PhilosophyRecommendation != BasicsRecommendation
  {
    assert |GreatRecommendation| != |GoodTrendRecommendation|;
    assert |GreatRecommendation| != |TailorRecommendation|;
    assert |GreatRecommendation| != |PhilosophyRecommendation|;
    assert |GreatRecommendation| != |BasicsRecommendation|;
    assert |GoodTrendRecommendation| != |TailorRecommendation|;
    assert |GoodTrendRecommendation| != |PhilosophyRecommendation|;
    assert |GoodTrendRecommendation| != |BasicsRecommendation|;
    assert |TailorRecommendation| != |PhilosophyRecommendation|;
    assert |TailorRecommendation| != |BasicsRecommendation|;
    assert |PhilosophyRecommendation| != |BasicsRecommendation|;
  }

  /** The report over a log: none without turns; otherwise it counts the turns, keeps the
      final trust and recommends by its own average score and that trust. */
  function FinalReport(log: seq<LogEntry>, trust: int): (r: Option<SessionReport>)
    ensures r.None? <==> log == []
    ensures r.Some? ==> r.value.totalTurns == |log| && r.value.finalTrust == trust
    ensures r.Some? ==> r.value.recommendation == Recommendation(r.value.avgScore, trust)
  {
    if log == [] then None
    else
      var avgScore := Mean(ScoreTotal(log), |log|);
      var avg := Averages(log);
      Some(SessionReport(
        |log|,
        avgScore,
        trust,
        avg,
        CategoryName(FirstMax(Categories, avg)),
        CategoryName(FirstMin(Categories, avg)),
        Recommendation(avgScore, trust)))
  }

  /** generate_final_report: a pass summing the scores, then a pass adding each entry's
      breakdown into one running total per category. */
  method GenerateFinalReport(log: seq<LogEntry>, trust: int) returns (report: Option<SessionReport>)
    ensures report == FinalReport(log, trust)
  {
    if log == [] {
      return None;
    }
    var totalTurns := |log|;
    var scoreSum := 0;
    var i := 0;
    while i < |log|
      invariant 0 <= i <= |log|
      invariant scoreSum == ScoreTotal(log[..i])
    {
      assert log[..i + 1][..i] == log[..i];
      scoreSum := scoreSum + log[i].feedback.score;
      i := i + 1;
    }
    assert log[..i] == log;
    var avgScore := scoreSum as real / totalTurns as real;

    var sums := map[MicroAgentCategory := 0, StateManagementCategory := 0, OrganicLoopingCategory := 0, HumanInLoopCategory := 0];
    i := 0;
    assert log[..i] == [];
    forall c: Category ensures c in sums && sums[c] == CategoryTotal(log[..i], c) {
      AllCategories(c);
    }
    while i < |log|
      invariant 0 <= i <= |log|
      invariant forall c: Category :: c in sums && sums[c] == CategoryTotal(log[..i], c)
    {
      assert log[..i + 1][..i] == log[..i];
      var j := 0;
      while j < |Categories|
        invariant 0 <= j <= |Categories|
        invariant forall c: Category :: c in sums
        invariant forall k :: 0 <= k < j ==> sums[Categories[k]] == CategoryTotal(log[..i + 1], Categories[k])
        invariant forall k :: j <= k < |Categories| ==> sums[Categories[k]] == CategoryTotal(log[..i], Categories[k])
      {
        var key := Categories[j];
        sums := sums[key := sums[key] + Points(log[i].feedback.breakdown, key)];
        j := j + 1;
      }
      forall c: Category ensures sums[c] == CategoryTotal(log[..i + 1], c) {
        AllCategories(c);
      }
      i := i + 1;
    }
    assert log[..i] == log;

    var avgBreakdown := map c: Category :: sums[c] as real / totalTurns as real;
    assert avgBreakdown == Averages(log);
    var maxKey := FirstMax(Categories, avgBreakdown);
    var minKey := FirstMin(Categories, avgBreakdown);
    report := Some(SessionReport(
      totalTurns,
      avgScore,
      trust,
      avgBreakdown,
      CategoryName(maxKey),
      CategoryName(minKey),
      Recommendation(avgScore, trust)));
  }

  const ScoreHigh := "score-high"
  const ScoreMid := "score-mid"
  const ScoreLow := "score-low"

  /** get_score_class: the CSS class of a score, high from 70, middle from 40, low below. */
  function ScoreClass(score: int): (r: string)
    ensures r == ScoreHigh <==> score >= 70
    ensures r == ScoreMid <==> 40 <= score < 70
    ensures r == ScoreLow <==> score < 40
  {
    assert |ScoreHigh| != |ScoreMid| && |ScoreHigh| != |ScoreLow| && ScoreMid[6] != ScoreLow[6];

    if score >= 70 then ScoreHigh
    else if score >= 40 then ScoreMid
    else ScoreLow
  }

  const ReviewBox := "review-box"
  const ReviewBoxWarning := "review-box-warning"
  const ReviewBoxDanger := "review-box-danger"

  /** get_review_box_class: the CSS class of the feedback box for a score, plain from 70,
      warning from 40, danger below. */
  function ReviewBoxClass(score: int): (r: string)
    ensures r == ReviewBox <==> score >= 70
    ensures r == ReviewBoxWarning <==> 40 <= score < 70
    ensures r == ReviewBoxDanger <==> score < 40
  {
    assert |ReviewBox| != |ReviewBoxWarning| && |ReviewBox| != |ReviewBoxDanger| && |ReviewBoxWarning| != |ReviewBoxDanger|;

    if score >= 70 then ReviewBox
    else if score >= 40 then ReviewBoxWarning
    else ReviewBoxDanger
  }
}
