/** The rule-based "manager" scorer: the keyword path of generate_manager_feedback,
    which runs whenever the optional language-model call gives no answer.
    The specification functions below say what each rubric category, the bonus,
    the strategy score and the final assembly produce; GenerateManagerFeedback computes
    the same record step by step, with running totals and a loop over the danger phrases. */
module Scorer {
  import opened Basics

  /** Points per rubric category, each already capped. */
  datatype Breakdown = Breakdown(microAgent: int, stateManagement: int, organicLooping: int, humanInLoop: int)
  {
    function Sum(): int { microAgent + stateManagement + organicLooping + humanInLoop }
  }

  /** The record the scorer returns (the keys of the returned dictionary). */
  datatype Feedback = Feedback(
    score: int,
    techScore: int,
    strategyScore: int,
    breakdown: Breakdown,
    feedback: seq<Note>,
    improvement: Advice)

  /** A line of the feedback list, named by its meaning; NoteText gives the wording shown. */
  datatype Note =
    | NoteGemRoles
    | NoteRoleSplit
    | NoteSingleResponsibility
    | NoteAgentCooperation
    | NoteAgentOnly
    | NoteReroute
    | NoteExceptionHandling
    | NoteTimeTrigger
    | NoteCycleStructure
    | NoteLoop
    | NoteFlowOrder
    | NoteFollowUp
    | NoteHumanApproval
    | NoteHitlConcept
    | NoteApprovalUi
    | NoteReview
    | NoteAnonymization
    | NoteTrainingExclusion
    | NoteScopeDown
    | NoteBudgetFit
    | NoteQuickRoi
    | NoteScalability
    | NoteBeachhead
    | NoteSmallStartNoPrice
    | NoteBadMove
    | NoteLacksPhilosophy
    | NotePhilosophyConveyed
    | NotePerfect
    | NoteTooShort
    | NoteNoKeywords
    | DangerNote(warning: Warning)

  /** The improvement advice; NoAdvice is the empty string the scorer starts from. */
  datatype Advice = NoAdvice | DangerAdvice | BasicAdvice | IpoAdvice | GoodAdvice | GreatAdvice | ExplainAdvice | DefaultAdvice

  /** The wording of each note as the scorer shows it. */
  function NoteText(n: Note): string
  {
    match n
    case NoteGemRoles => "✅ 具体的なGemの役割定義あり - Micro-Agent戦略の理想形"
    case NoteRoleSplit => "✅ 役割分割の概念を説明 - Micro-Agent戦略"
    case NoteSingleResponsibility => "✅ 単一責任の原則への言及あり"
    case NoteAgentCooperation => "✅ エージェント連携の概念あり"
    case NoteAgentOnly => "⚠️ Gem/エージェントの言及はあるが、具体的な役割定義が不足"
    case NoteReroute => "✅ エラー時のリルート設計あり - 動的ステート管理"
    case NoteExceptionHandling => "✅ 例外処理への言及あり"
    case NoteTimeTrigger => "✅ 時間ベースのトリガー設計あり"
    case NoteCycleStructure => "✅ 循環構造の設計を明示 - 有機的循環の理想形"
    case NoteLoop => "✅ ループ処理の概念あり"
    case NoteFlowOrder => "✅ 処理フローの順序を説明"
    case NoteFollowUp => "✅ 取りこぼし防止の意識あり"
    case NoteHumanApproval => "✅ 人間による承認フローを明示 - Human-in-the-Loop"
    case NoteHitlConcept => "✅ Human-in-the-Loop概念への直接言及"
    case NoteApprovalUi => "✅ 具体的な承認UIの言及あり"
    case NoteReview => "✅ 確認プロセスへの言及あり"
    case NoteAnonymization => "🛡️ セキュリティ対策（匿名化）への言及 - 信頼性向上"
    case NoteTrainingExclusion => "🛡️ データ学習除外への言及 - 顧客の懸念に対応"
    case NoteScopeDown => "📉 【Scope Down】対象範囲を限定した提案 - 全失注リスクを回避"
    case NoteBudgetFit => "📉 【Budget Fit】部長決裁ライン（300万以下）を意識した金額提示"
    case NoteQuickRoi => "📉 【Quick ROI】短期的な効果を数字で提示 - 稟議を通しやすい"
    case NoteScalability => "📉 【Scalability】将来の全体導入への布石を提示"
    case NoteBeachhead => "🎯 【Beachhead Strategy】小さく始めて成功を積む - 理想的な着地点戦略"
    case NoteSmallStartNoPrice => "⚠️ スモールスタートは良いが、具体的な金額感（100-300万）を提示すると説得力が増します"
    case NoteBadMove => "🚫 【Bad Move】機能を削らず値引きだけで解決しようとしています。『範囲を絞ってコストを下げる』が正解です。"
    case NoteLacksPhilosophy => "⚠️ 設計哲学（Micro-Agent、有機的循環など）への言及が不足しています。"
    case NotePhilosophyConveyed => "🎯 設計哲学を適切に伝えられています。"
    case NotePerfect => "🏆 完璧です！Micro-Agent、Dynamic State、Organic Loopingの3要素が網羅されています。"
    case NoteTooShort => "⚠️ 説明が短すぎます。詳細なアーキテクチャ説明が必要です。"
    case NoteNoKeywords => "⚠️ 評価ポイントとなるキーワードが見つかりませんでした。"
    case DangerNote(warning) => "🚨 " + WarningText(warning)
  }

  /** The wording of each piece of advice. */
  function AdviceText(a: Advice): string
  {
    match a
    case NoAdvice => ""
    case DangerAdvice => "危険なキーワードを避け、具体的なアーキテクチャ（Gem分割、承認フロー、循環構造）を説明してください。"
    case BasicAdvice => "単なる機能説明ではなく、Gemの役割分割、承認フロー、循環構造を具体的に説明してください。"
    case IpoAdvice => "用語は使えていますが、具体的なInput/Output（I-P-O）の説明が不足しています。どのデータがトリガーになり、どう処理されるか明示してください。"
    case GoodAdvice => "良い提案です。さらに顧客の業界特有の課題に当てはめた具体例を追加すると説得力が増します。"
    case GreatAdvice => "素晴らしい提案です。この調子で顧客の懸念（セキュリティ、予算）にも先回りして対応しましょう。"
    case ExplainAdvice => "顧客の不安を払拭するため、具体的な仕組みを説明してください。"
    case DefaultAdvice => "設計哲学に基づいた説明を心がけてください。"
  }

  /** Points a group of rules awards before any cap, and the notes it adds, in order. */
  datatype Scored = Scored(points: int, notes: seq<Note>)

  /** One independent rule: when it fires it adds its points and appends its note. */
  function Rule(acc: Scored, fires: bool, points: int, note: Note): Scored
  {
    if fires then Scored(acc.points + points, acc.notes + [note]) else acc
  }

  /** Inputs shorter than this many characters are overridden as "too short". */
  const MinLength := 30
  const DangerPenaltyPerPhrase := 15
  const MicroAgentCap := 30
  const StateManagementCap := 25
  const OrganicLoopingCap := 25
  const HumanInLoopCap := 20

  // ---------------------------------------------------------------- danger phrases

  /** The warning shown for each danger phrase. */
  datatype Warning = AllAutomated | FullyAutomatic | ZeroEffort | DoesAnything | Magic | EasySetup

  function WarningText(w: Warning): string
  {
    match w
    case AllAutomated => "『全部自動化』は危険な提案です。例外処理やエラー時の対応が考慮されていません。"
    case FullyAutomatic => "『全自動』という表現は顧客に不信感を与えます。人間の介入ポイントを明示してください。"
    case ZeroEffort => "『工数ゼロ』は非現実的です。適切な期待値設定が必要です。"
    case DoesAnything => "『何でもできる』は思考停止した提案です。具体的な役割分担を示してください。"
    case Magic => "『魔法のように』という表現は避けてください。技術的な根拠を示しましょう。"
    case EasySetup => "導入の容易さだけでなく、運用フェーズの設計も説明してください。"
  }

  /** Each danger phrase with the warning shown when it occurs, in scan order. */
  const DangerPatterns: seq<(string, Warning)> := [
    ("全部自動", AllAutomated),
    ("全自動", FullyAutomatic),
    ("工数ゼロ", ZeroEffort),
    ("何でもできる", DoesAnything),
    ("魔法", Magic),
    ("簡単に導入", EasySetup)
  ]

  /** The patterns of `ps` whose phrase occurs in `s`, in list order. */
  function DangerHits(s: string, ps: seq<(string, Warning)>): seq<(string, Warning)>
    decreases |ps|
  {
    if ps == [] then []
    else
      var last := ps[|ps| - 1];
      DangerHits(s, ps[..|ps| - 1]) + (if Contains(s, last.0) then [last] else [])
  }

  /** The warning notes for a list of hit patterns. */
  function DangerNotes(hits: seq<(string, Warning)>): (r: seq<Note>)
    ensures |r| == |hits|
    decreases |hits|
  {
    if hits == [] then []
    else DangerNotes(hits[..|hits| - 1]) + [DangerNote(hits[|hits| - 1].1)]
  }

  function DangerPenalty(s: string): int
  {
    DangerPenaltyPerPhrase * |DangerHits(s, DangerPatterns)|
  }

  // ---------------------------------------------------------------- Micro-Agent (cap 30)

  const GemRoles := ["解析Gem", "作成Gem", "通知Gem", "判定Gem", "リマインドGem"]
  const SplitWords := ["分け", "分割", "細分化", "分離"]
  const SingleResponsibility := ["単一責任", "専門特化", "それぞれの"]
  const AgentWords := ["Gem", "エージェント"]

  predicate MentionsRoleSplit(s: string) { Contains(s, "役割") && ContainsAny(s, SplitWords) }
  predicate MentionsAgentCooperation(s: string) { ContainsAny(s, AgentWords) && Contains(s, "連携") }

  /** First matching rule wins. */
  function MicroAgent(s: string): (r: Scored)
    ensures r.points == 0 <==> r.notes == []
  {
    if ContainsAny(s, GemRoles) then Scored(20, [NoteGemRoles])
    else if MentionsRoleSplit(s) then Scored(15, [NoteRoleSplit])
    else if ContainsAny(s, SingleResponsibility) then Scored(12, [NoteSingleResponsibility])
    else if MentionsAgentCooperation(s) then Scored(10, [NoteAgentCooperation])
    else if ContainsAny(s, AgentWords) then Scored(5, [NoteAgentOnly])
    else Scored(0, [])
  }

  // ---------------------------------------------------------------- state management (cap 25)

  const RerouteWords := ["リルート", "フォールバック", "代替ルート"]
  const ExceptionWords := ["例外", "エラー"]
  const HandlingWords := ["処理", "対応", "時"]
  const TimeTriggerWords := ["3日", "期限", "タイムアウト", "返信がない"]

  predicate MentionsExceptionHandling(s: string)
  {
    ContainsAny(s, ExceptionWords) && ContainsAny(s, HandlingWords)
  }

  /** Three independent rules that add up. */
  function StateManagement(s: string): (r: Scored)
    ensures r.points == 0 <==> r.notes == []
  {
    var r := Rule(Scored(0, []), ContainsAny(s, RerouteWords), 15, NoteReroute);
    var r := Rule(r, MentionsExceptionHandling(s), 10, NoteExceptionHandling);
    Rule(r, ContainsAny(s, TimeTriggerWords), 8, NoteTimeTrigger)
  }

  // ---------------------------------------------------------------- organic looping (cap 25)

  const StructureWords := ["構造", "設計", "組み"]
  const LoopWords := ["ループ", "繰り返し", "定期的"]
  const SequenceWords := ["次に", "その後", "まず"]
  const FollowUpWords := ["取りこぼし", "漏れ", "フォローアップ"]

  predicate MentionsCycleStructure(s: string) { Contains(s, "循環") && ContainsAny(s, StructureWords) }
  predicate MentionsFlowOrder(s: string) { Contains(s, "連携") && ContainsAny(s, SequenceWords) }

  /** A two-way first-match rule followed by two independent rules. */
  function OrganicLooping(s: string): (r: Scored)
    ensures r.points == 0 <==> r.notes == []
  {
    var cycle := MentionsCycleStructure(s);
    var r := Rule(Scored(0, []), cycle, 20, NoteCycleStructure);
    var r := Rule(r, !cycle && ContainsAny(s, LoopWords), 12, NoteLoop);
    var r := Rule(r, MentionsFlowOrder(s), 8, NoteFlowOrder);
    Rule(r, ContainsAny(s, FollowUpWords), 5, NoteFollowUp)
  }

  // ---------------------------------------------------------------- human in the loop (cap 20)

  const ApprovalWords := ["承認", "確認", "判断"]
  const ApprovalUiWords := ["承認ボタン", "最終確認", "ゲートキーパー"]
  const ReviewWords := ["承認", "確認", "レビュー"]

  predicate MentionsHumanApproval(s: string)
  {
    (Contains(s, "人間") || Contains(s, "担当者")) && ContainsAny(s, ApprovalWords)
  }
  predicate MentionsHitl(s: string)
  {
    Contains(s, "Human-in-the-Loop") || Contains(s, "ヒューマンインザループ")
  }

  /** First matching rule wins. */
  function HumanInLoop(s: string): (r: Scored)
    ensures r.points == 0 <==> r.notes == []
  {
    if MentionsHumanApproval(s) then Scored(15, [NoteHumanApproval])
    else if MentionsHitl(s) then Scored(12, [NoteHitlConcept])
    else if ContainsAny(s, ApprovalUiWords) then Scored(15, [NoteApprovalUi])
    else if ContainsAny(s, ReviewWords) then Scored(8, [NoteReview])
    else Scored(0, [])
  }

  // ---------------------------------------------------------------- security bonus

  const AnonymizationWords := ["匿名化", "マスキング", "個人情報"]
  const TrainingExclusionWords := ["学習に使われない", "学習除外", "データ保護"]

  function Bonus(s: string): (r: Scored)
    ensures r.points == 0 <==> r.notes == []
  {
    var r := Rule(Scored(0, []), ContainsAny(s, AnonymizationWords), 5, NoteAnonymization);
    Rule(r, ContainsAny(s, TrainingExclusionWords), 5, NoteTrainingExclusion)
  }

  // ---------------------------------------------------------------- beachhead strategy

  const ScopeLeadWords := ["まずは", "特定", "絞"]
  const ScopeKeywords := ["特定業務", "絞って", "だけ", "のみ", "一部", "請求書", "日程調整", "採用", "問い合わせ"]
  const PriceKeywords := ["100万", "200万", "300万", "百万", "数百万", "トライアル", "PoC"]
  const SavingWords := ["時間", "工数", "削減"]
  const PeriodWords := ["月", "週", "日", "3ヶ月", "半年"]
  const ScalabilityWords := ["成功したら", "次は", "第一フェーズ", "フェーズ1", "将来的", "拡張"]
  const SmallStartWords := ["スモールスタート", "PoC", "実証", "パイロット", "トライアル"]
  const DiscountWords := ["値下げ", "割引", "安く"]
  const NarrowingWords := ["絞", "限定", "特定", "だけ"]

  predicate ScopesDown(s: string) { ContainsAny(s, ScopeLeadWords) && ContainsAny(s, ScopeKeywords) }
  predicate ShowsQuickRoi(s: string) { ContainsAny(s, SavingWords) && ContainsAny(s, PeriodWords) }
  predicate DiscountsOnly(s: string) { ContainsAny(s, DiscountWords) && !ContainsAny(s, NarrowingWords) }

  /** The first four strategy rules: scope, budget, quick ROI and scalability. */
  function StrategyOpening(s: string): (r: Scored)
    ensures r.notes == [] ==> r.points == 0
  {
    var r := Rule(Scored(0, []), ScopesDown(s), 15, NoteScopeDown);
    var r := Rule(r, ContainsAny(s, PriceKeywords), 10, NoteBudgetFit);
    var r := Rule(r, ShowsQuickRoi(s), 10, NoteQuickRoi);
    Rule(r, ContainsAny(s, ScalabilityWords), 5, NoteScalability)
  }

  /** Six independent rules; the last one, a discount without narrowing the scope, subtracts. */
  function Strategy(s: string): (r: Scored)
    ensures r.notes == [] ==> r.points == 0
  {
    var small := ContainsAny(s, SmallStartWords);
    var price := ContainsAny(s, PriceKeywords);
    var r := Rule(StrategyOpening(s), small && price, 10, NoteBeachhead);
    var r := Rule(r, small && !price, 5, NoteSmallStartNoPrice);
    Rule(r, DiscountsOnly(s), -15, NoteBadMove)
  }

  // ---------------------------------------------------------------- assembly

  function CappedBreakdown(s: string): Breakdown
  {
    Breakdown(Min(MicroAgent(s).points, MicroAgentCap),
              Min(StateManagement(s).points, StateManagementCap),
              Min(OrganicLooping(s).points, OrganicLoopingCap),
              Min(HumanInLoop(s).points, HumanInLoopCap))
  }

  function TechScore(s: string): int
  {
    Max(0, CappedBreakdown(s).Sum() + Bonus(s).points - DangerPenalty(s))
  }

  /** Technical plus strategy points, capped at 100 but not floored. */
  function TotalScore(s: string): int
  {
    Min(TechScore(s) + Strategy(s).points, 100)
  }

  /** The notes of the four categories and the bonus, in rule order. */
  function FeedbackPoints(s: string): seq<Note>
  {
    MicroAgent(s).notes + StateManagement(s).notes + OrganicLooping(s).notes
    + HumanInLoop(s).notes + Bonus(s).notes
  }

  /** Notes in the order the scorer collects them: warnings, category and bonus notes, strategy notes. */
  function CollectedNotes(s: string): seq<Note>
  {
    DangerNotes(DangerHits(s, DangerPatterns)) + FeedbackPoints(s) + Strategy(s).notes
  }

  /** The advice chosen by threshold, with the notes it appends; no length rule yet.
      The last branch always applies, so the empty advice is never returned (see GradedExtends). */
  function Graded(penalty: int, total: int, notes: seq<Note>): (seq<Note>, Advice)
  {
    var (n, advice) :=
      if penalty > 0 then (notes, DangerAdvice)
      else if total < 30 then (notes + [NoteLacksPhilosophy], BasicAdvice)
      else if total < 50 then (notes, IpoAdvice)
      else if total < 70 then (notes, GoodAdvice)
      else if total >= 70 then (notes + [NotePhilosophyConveyed], GreatAdvice)
      else (notes, NoAdvice);
    (if total >= 90 then n + [NotePerfect] else n, advice)
  }

  /** Notes and advice after the length rule, before the defaults for empty values. */
  function RawOutcome(s: string): (seq<Note>, Advice)
  {
    var (n, advice) := Graded(DangerPenalty(s), TotalScore(s), CollectedNotes(s));
    if |s| < MinLength then ([NoteTooShort] + n, ExplainAdvice) else (n, advice)
  }

  /** The record generate_manager_feedback returns on its keyword path: it always carries
      notes and an advice, a score of at most 100 (at most 20 for a short input) and a
      strategy score floored at 0. */
  function ManagerFeedback(s: string): (r: Feedback)
    ensures r.feedback != [] && r.improvement != NoAdvice
    ensures r.score <= 100 && (|s| < MinLength ==> r.score <= 20)
    ensures r.strategyScore >= 0
  {
    var (notes, advice) := RawOutcome(s);
    Feedback(
      if |s| < MinLength then Min(TotalScore(s), 20) else TotalScore(s),
      TechScore(s),
      Max(0, Strategy(s).points),
      CappedBreakdown(s),
      if notes != [] then notes else [NoteNoKeywords],
      if advice != NoAdvice then advice else DefaultAdvice)
  }

  // ---------------------------------------------------------------- the scorer, step by step

  /** The danger-phrase scan: one warning and 15 points of penalty per phrase found. */
  method ScanDangerPhrases(userInput: string) returns (penalties: seq<Note>, penaltyScore: int)
    ensures penalties == DangerNotes(DangerHits(userInput, DangerPatterns))
    ensures penaltyScore == DangerPenalty(userInput)
  {
    penalties, penaltyScore := [], 0;
    ghost var hits: seq<(string, Warning)> := [];
    var i := 0;
    while i < |DangerPatterns|
      invariant 0 <= i <= |DangerPatterns|
      invariant hits == DangerHits(userInput, DangerPatterns[..i])
      invariant penalties == DangerNotes(hits)
      invariant penaltyScore == DangerPenaltyPerPhrase * |hits|
    {
      var (pattern, warning) := DangerPatterns[i];
      assert DangerPatterns[..i + 1][..i] == DangerPatterns[..i];
      if Contains(userInput, pattern) {
        penalties := penalties + [DangerNote(warning)];
        penaltyScore := penaltyScore + DangerPenaltyPerPhrase;
        hits := hits + [DangerPatterns[i]];
      }
      i := i + 1;
    }
    assert DangerPatterns[..i] == DangerPatterns;
  }

  /** The Micro-Agent chain; its note goes onto the running list `notes`. */
  method ScoreMicroAgent(userInput: string, notes: seq<Note>) returns (microScore: int, notes': seq<Note>)
    ensures microScore == MicroAgent(userInput).points
    ensures notes' == notes + MicroAgent(userInput).notes
  {
    microScore, notes' := 0, notes;
    if ContainsAny(userInput, GemRoles) {
      microScore := microScore + 20;
      notes' := notes' + [NoteGemRoles];
    } else if Contains(userInput, "役割") && ContainsAny(userInput, SplitWords) {
      microScore := microScore + 15;
      notes' := notes' + [NoteRoleSplit];
    } else if ContainsAny(userInput, SingleResponsibility) {
      microScore := microScore + 12;
      notes' := notes' + [NoteSingleResponsibility];
    } else if ContainsAny(userInput, AgentWords) && Contains(userInput, "連携") {
      microScore := microScore + 10;
      notes' := notes' + [NoteAgentCooperation];
    } else if ContainsAny(userInput, AgentWords) {
      microScore := microScore + 5;
      notes' := notes' + [NoteAgentOnly];
    }
  }

  method ScoreStateManagement(userInput: string, notes: seq<Note>) returns (stateScore: int, notes': seq<Note>)
    ensures stateScore == StateManagement(userInput).points
    ensures notes' == notes + StateManagement(userInput).notes
  {
    stateScore, notes' := 0, notes;
    if ContainsAny(userInput, RerouteWords) {
      stateScore := stateScore + 15;
      notes' := notes' + [NoteReroute];
    }
    if ContainsAny(userInput, ExceptionWords) && ContainsAny(userInput, HandlingWords) {
      stateScore := stateScore + 10;
      notes' := notes' + [NoteExceptionHandling];
    }
    if ContainsAny(userInput, TimeTriggerWords) {
      stateScore := stateScore + 8;
      notes' := notes' + [NoteTimeTrigger];
    }
  }

  method ScoreOrganicLooping(userInput: string, notes: seq<Note>) returns (loopScore: int, notes': seq<Note>)
    ensures loopScore == OrganicLooping(userInput).points
    ensures notes' == notes + OrganicLooping(userInput).notes
  {
    loopScore, notes' := 0, notes;
    if Contains(userInput, "循環") && ContainsAny(userInput, StructureWords) {
      loopScore := loopScore + 20;
      notes' := notes' + [NoteCycleStructure];
    } else if ContainsAny(userInput, LoopWords) {
      loopScore := loopScore + 12;
      notes' := notes' + [NoteLoop];
    }
    if Contains(userInput, "連携") && ContainsAny(userInput, SequenceWords) {
      loopScore := loopScore + 8;
      notes' := notes' + [NoteFlowOrder];
    }
    if ContainsAny(userInput, FollowUpWords) {
      loopScore := loopScore + 5;
      notes' := notes' + [NoteFollowUp];
    }
  }

  method ScoreHumanInLoop(userInput: string, notes: seq<Note>) returns (humanScore: int, notes': seq<Note>)
    ensures humanScore == HumanInLoop(userInput).points
    ensures notes' == notes + HumanInLoop(userInput).notes
  {
    humanScore, notes' := 0, notes;
    if (Contains(userInput, "人間") || Contains(userInput, "担当者")) && ContainsAny(userInput, ApprovalWords) {
      humanScore := humanScore + 15;
      notes' := notes' + [NoteHumanApproval];
    } else if Contains(userInput, "Human-in-the-Loop") || Contains(userInput, "ヒューマンインザループ") {
      humanScore := humanScore + 12;
      notes' := notes' + [NoteHitlConcept];
    } else if ContainsAny(userInput, ApprovalUiWords) {
      humanScore := humanScore + 15;
      notes' := notes' + [NoteApprovalUi];
    } else if ContainsAny(userInput, ReviewWords) {
      humanScore := humanScore + 8;
      notes' := notes' + [NoteReview];
    }
  }

  method ScoreBonus(userInput: string, notes: seq<Note>) returns (bonusScore: int, notes': seq<Note>)
    ensures bonusScore == Bonus(userInput).points
    ensures notes' == notes + Bonus(userInput).notes
  {
    bonusScore, notes' := 0, notes;
    if ContainsAny(userInput, AnonymizationWords) {
      bonusScore := bonusScore + 5;
      notes' := notes' + [NoteAnonymization];
    }
    if ContainsAny(userInput, TrainingExclusionWords) {
      bonusScore := bonusScore + 5;
      notes' := notes' + [NoteTrainingExclusion];
    }
  }

  method ScoreStrategy(userInput: string) returns (strategyScore: int, strategyFeedback: seq<Note>)
    ensures strategyScore == Strategy(userInput).points
    ensures strategyFeedback == Strategy(userInput).notes
  {
    strategyScore, strategyFeedback := 0, [];
    if ContainsAny(userInput, ScopeLeadWords) && ContainsAny(userInput, ScopeKeywords) {
      strategyScore := strategyScore + 15;
      strategyFeedback := strategyFeedback + [NoteScopeDown];
    }
    if ContainsAny(userInput, PriceKeywords) {
      strategyScore := strategyScore + 10;
      strategyFeedback := strategyFeedback + [NoteBudgetFit];
    }
    if ContainsAny(userInput, SavingWords) && ContainsAny(userInput, PeriodWords) {
      strategyScore := strategyScore + 10;
      strategyFeedback := strategyFeedback + [NoteQuickRoi];
    }
    if ContainsAny(userInput, ScalabilityWords) {
      strategyScore := strategyScore + 5;
      strategyFeedback := strategyFeedback + [NoteScalability];
    }
    assert strategyScore == StrategyOpening(userInput).points && strategyFeedback == StrategyOpening(userInput).notes;
    if ContainsAny(userInput, SmallStartWords) {
      if ContainsAny(userInput, PriceKeywords) {
        strategyScore := strategyScore + 10;
        strategyFeedback := strategyFeedback + [NoteBeachhead];
      } else {
        strategyScore := strategyScore + 5;
        strategyFeedback := strategyFeedback + [NoteSmallStartNoPrice];
      }
    }
    if ContainsAny(userInput, DiscountWords) {
      if !ContainsAny(userInput, NarrowingWords) {
        strategyScore := strategyScore - 15;
        strategyFeedback := strategyFeedback + [NoteBadMove];
      }
    }
  }

  /** The improvement advice by threshold, with the notes it appends. */
  method ChooseAdvice(penaltyScore: int, finalScore: int, notes: seq<Note>) returns (notes': seq<Note>, improvement: Advice)
    ensures (notes', improvement) == Graded(penaltyScore, finalScore, notes)
  {
    notes', improvement := notes, NoAdvice;
    if penaltyScore > 0 {
      improvement := DangerAdvice;
    } else if finalScore < 30 {
      notes' := notes' + [NoteLacksPhilosophy];
      improvement := BasicAdvice;
    } else if finalScore < 50 {
      improvement := IpoAdvice;
    } else if finalScore < 70 {
      improvement := GoodAdvice;
    } else if finalScore >= 70 {
      notes' := notes' + [NotePhilosophyConveyed];
      improvement := GreatAdvice;
    }
    if finalScore >= 90 {
      notes' := notes' + [NotePerfect];
    }
  }

  /** generate_manager_feedback on its keyword path, section by section with running totals;
      it returns exactly the record ManagerFeedback describes. */
  method GenerateManagerFeedback(userInput: string) returns (fb: Feedback)
    ensures fb == ManagerFeedback(userInput)
  {
    var penalties, penaltyScore := ScanDangerPhrases(userInput);
    var feedbackPoints: seq<Note> := [];
    var microScore, stateScore, loopScore, humanScore, bonusScore;
    microScore, feedbackPoints := ScoreMicroAgent(userInput, feedbackPoints);
    assert feedbackPoints == MicroAgent(userInput).notes;
    stateScore, feedbackPoints := ScoreStateManagement(userInput, feedbackPoints);
    loopScore, feedbackPoints := ScoreOrganicLooping(userInput, feedbackPoints);
    humanScore, feedbackPoints := ScoreHumanInLoop(userInput, feedbackPoints);
    var breakdown := Breakdown(Min(microScore, MicroAgentCap), Min(stateScore, StateManagementCap),
                               Min(loopScore, OrganicLoopingCap), Min(humanScore, HumanInLoopCap));
    bonusScore, feedbackPoints := ScoreBonus(userInput, feedbackPoints);
    var strategyScore, strategyFeedback := ScoreStrategy(userInput);

    var baseScore := breakdown.Sum() + bonusScore;
    var techScore := Max(0, baseScore - penaltyScore);
    var totalScore := techScore + strategyScore;
    var finalScore := Min(totalScore, 100);
    var allFeedback := penalties + feedbackPoints + strategyFeedback;
    assert allFeedback == CollectedNotes(userInput);
    assert breakdown == CappedBreakdown(userInput);
    assert techScore == TechScore(userInput) && finalScore == TotalScore(userInput);

    var improvement;
    allFeedback, improvement := ChooseAdvice(penaltyScore, finalScore, allFeedback);

    if |userInput| < MinLength {
      allFeedback := [NoteTooShort] + allFeedback;
      finalScore := Min(finalScore, 20);
      improvement := ExplainAdvice;
    }
    assert (allFeedback, improvement) == RawOutcome(userInput);

    fb := Feedback(
      finalScore,
      techScore,
      Max(0, strategyScore),
      breakdown,
      if allFeedback != [] then allFeedback else [NoteNoKeywords],
      if improvement != NoAdvice then improvement else DefaultAdvice);
  }
}
