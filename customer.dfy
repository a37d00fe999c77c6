/** The simulated customer: the persona catalogs, the opening greeting, and the trust
    update and canned reply of generate_customer_response when no language-model reply
    is available. A language-model reply, when there is one, is a parameter. */
module Customer {
  import opened Basics

  /** The customer persona (the keys of customer_persona). */
  datatype Persona = Persona(industry: string, position: string, budget: string, painPoint: string, personality: string)

  const Industries: seq<string> := ["製造業", "SaaS", "金融", "物流", "ヘルスケア", "建設", "小売", "不動産"]
  const Budgets: seq<string> := ["300万円（部内予算）", "500万円（部内予算）", "1000万円（部門予算）", "2000万円（全社予算）"]
  const Positions: seq<string> := ["部長", "課長", "事業部長", "DX推進室長"]
  const Personalities: seq<string> := [
    "論理的だが新しい技術には慎重。ROIとセキュリティを重視する。",
    "革新的な技術に興味があるが、導入実績を重視する。",
    "コスト削減に強い関心がある。具体的な数字での説明を好む。",
    "現場からの反発を懸念している。導入の容易さを重視する。",
    "過去にRPA導入で失敗経験あり。例外処理への対応を重視する。"
  ]

  const PainPointSuffix := "特有のアナログ業務（FAX/電話/手入力）によるボトルネック"

  /** The pain point is derived from the industry. */
  function PainPoint(industry: string): (r: string)
    ensures industry <= r && |r| > |industry|
  {
    industry + PainPointSuffix
  }

  /** A persona init_persona can produce: every field drawn from its catalog. */
  predicate FromCatalogs(p: Persona)
  {
    && p.industry in Industries
    && p.position in Positions
    && p.budget in Budgets
    && p.personality in Personalities
    && p.painPoint == PainPoint(p.industry)
  }

  const GreetingOpen := "初めまして。"
  const GreetingCompany := "企業の"
  const GreetingIssue := "をしております。\n\n当社では『"
  const GreetingAsk := "』という課題を抱えております。貴社のAIエージェントソリューションで解決できると伺いましたが、具体的にどのような仕組みなのでしょうか？\n\n予算は"
  const GreetingClose := "程度を想定しておりますが、この範囲で実現可能でしょうか。"

  /** The greeting used when the language model gives no answer. */
  function MockGreeting(p: Persona): string
  {
    GreetingOpen + p.industry + GreetingCompany + p.position + GreetingIssue + p.painPoint
    + GreetingAsk + p.budget + GreetingClose
  }

  /** A language-model reply counts only when it is present and non-empty (Python truthiness). */
  predicate Answered(llmReply: Option<string>)
  {
    llmReply.Some? && llmReply.value != ""
  }

  /** The canned greeting names the persona's industry, position, pain point and budget. */
  lemma MockGreetingMentions(p: Persona)
    ensures Contains(MockGreeting(p), p.industry)
    ensures Contains(MockGreeting(p), p.position)
    ensures Contains(MockGreeting(p), p.painPoint)
    ensures Contains(MockGreeting(p), p.budget)
  {
    var s1 := GreetingOpen + p.industry;
    var s2 := s1 + GreetingCompany;
    var s3 := s2 + p.position;
    var s4 := s3 + GreetingIssue;
    var s5 := s4 + p.painPoint;
    var s6 := s5 + GreetingAsk;
    var s7 := s6 + p.budget;
    var e := GreetingClose;
    assert MockGreeting(p) == s7 + e;
    ContainsSelf(p.industry);
    ContainsRight(GreetingOpen, p.industry, p.industry);
    ContainsLeft(s1, GreetingCompany, p.industry);
    ContainsSelf(p.position);
    ContainsRight(s2, p.position, p.position);
    ContainsLeft(s2, p.position, p.industry);
    ContainsLeft(s3, GreetingIssue, p.industry);
    ContainsLeft(s3, GreetingIssue, p.position);
    ContainsSelf(p.painPoint);
    ContainsRight(s4, p.painPoint, p.painPoint);
    ContainsLeft(s4, p.painPoint, p.industry);
    ContainsLeft(s4, p.painPoint, p.position);
    ContainsSelf(p.budget);
    ContainsRight(s6, p.budget, p.budget);
    forall q | q in [p.industry, p.position, p.painPoint]
      ensures Contains(s7, q)
    {
      ContainsLeft(s5, GreetingAsk, q);
      ContainsLeft(s6, p.budget, q);
    }
    forall q | q in [p.industry, p.position, p.painPoint, p.budget]
      ensures Contains(s7 + e, q)
    {
      ContainsLeft(s7, e, q);
    }
  }

  /** generate_initial_greeting: never empty; the model's greeting when it gave one,
      otherwise the canned greeting naming the persona's details. */
  function Greeting(p: Persona, llmReply: Option<string>): (r: string)
    ensures r != ""
    ensures Answered(llmReply) ==> r == llmReply.value
    ensures !Answered(llmReply) ==>
      && Contains(r, p.industry) && Contains(r, p.position)
      && Contains(r, p.painPoint) && Contains(r, p.budget)
  {
    if Answered(llmReply) then llmReply.value
    else
      MockGreetingMentions(p);
      MockGreeting(p)
  }

  // ---------------------------------------------------------------- trust

  const GoodKeywords: seq<string> := ["エージェント", "Gem", "循環", "ループ", "人間", "承認", "連携"]
  const CompromiseKeywords: seq<string> := ["スモールスタート", "PoC", "トライアル", "まずは", "絞って", "特定業務", "だけ"]
  const OfferPriceKeywords: seq<string> := ["100万", "200万", "300万", "百万"]

  const TrustCap := 100
  const TrustPerKeyword := 10
  const DealBonus := 30
  const SmallStartBonus := 15
  const InterestBonus := 15
  const ConcernPenalty := 5

  /** A trust level as the session keeps it. */
  predicate TrustInRange(t: int) { 0 <= t <= TrustCap }

  predicate ProposesSmallStart(input: string) { ContainsAny(input, CompromiseKeywords) }
  predicate NamesPrice(input: string) { ContainsAny(input, OfferPriceKeywords) }

  /** The trust change driven by the tone of a language-model reply. */
  function ToneTrust(trust: int, reply: string): int
  {
    if Contains(reply, "面白い") || Contains(reply, "興味深い") then Min(trust + InterestBonus, TrustCap)
    else if Contains(reply, "不安") || Contains(reply, "心配") then Max(trust - ConcernPenalty, 0)
    else trust
  }

  /** The trust change without a model reply: 10 per good keyword, then a bonus for a small
      start (larger when a price is named), each step capped at 100. */
  function FallbackTrust(trust: int, input: string): int
  {
    var t := Min(trust + CountContained(input, GoodKeywords) * TrustPerKeyword, TrustCap);
    if ProposesSmallStart(input) && NamesPrice(input) then Min(t + DealBonus, TrustCap)
    else if ProposesSmallStart(input) then Min(t + SmallStartBonus, TrustCap)
    else t
  }

  /** The trust level after one customer response: it stays within [0, 100], never drops
      without a model reply, and drops with one only on a worried tone. */
  function NextTrust(trust: int, input: string, llmReply: Option<string>): (r: int)
    ensures TrustInRange(trust) ==> TrustInRange(r)
    ensures TrustInRange(trust) && !Answered(llmReply) ==> trust <= r
    ensures TrustInRange(trust) && Answered(llmReply) && r < trust ==>
      Contains(llmReply.value, "不安") || Contains(llmReply.value, "心配")
  {
    if Answered(llmReply) then ToneTrust(trust, llmReply.value) else FallbackTrust(trust, input)
  }

  // ---------------------------------------------------------------- replies

  /** The part of the budget before the full-width parenthesis, e.g. "300万円". */
  function BudgetAmount(p: Persona): string
  {
    BeforeFirst(p.budget, '（')
  }

  /** The first area to automate named in the deal reply. */
  function FocusArea(industry: string): string
  {
    if industry in ["製造業", "物流", "小売"] then "請求書処理" else "問い合わせ対応"
  }

  const DealLead := "..."
  const DealApproval := "の範囲内ですね。それなら私の決裁で進められます。\n\n特定の業務に絞って、まず成果を見てみる形なら現実的ですね。"
  const DealFocus := "では特に"
  const DealPlan := "がボトルネックなので、そこからお願いできますか？\n\n3ヶ月後に効果を測定して、良ければ次のフェーズに進みましょう。"

  /** The text of the deal reply quotes the amount, the industry and its focus area. */
  lemma DealReplyMentions(p: Persona)
    ensures var r := DealLead + BudgetAmount(p) + DealApproval + p.industry + DealFocus + FocusArea(p.industry) + DealPlan;
      && Contains(r, BudgetAmount(p))
      && Contains(r, p.industry)
      && Contains(r, FocusArea(p.industry))
  {
    var m, f := BudgetAmount(p), FocusArea(p.industry);
    var s1 := DealLead + m;
    var s2 := s1 + DealApproval;
    var s3 := s2 + p.industry;
    var s4 := s3 + DealFocus;
    var s5 := s4 + f;
    var e := DealPlan;
    ContainsSelf(m);
    ContainsRight(DealLead, m, m);
    ContainsLeft(s1, DealApproval, m);
    ContainsSelf(p.industry);
    ContainsRight(s2, p.industry, p.industry);
    ContainsLeft(s2, p.industry, m);
    ContainsSelf(f);
    ContainsRight(s4, f, f);
    forall q | q in [m, p.industry]
      ensures Contains(s5, q)
    {
      ContainsLeft(s3, DealFocus, q);
      ContainsLeft(s4, f, q);
    }
    forall q | q in [m, p.industry, f]
      ensures Contains(s5 + e, q)
    {
      ContainsLeft(s5, e, q);
    }
  }

  /** The reply to a small start with a price: the customer can approve it alone. It quotes
      the budget amount, the industry and the industry's first area to automate. */
  function DealReply(p: Persona): (r: string)
    ensures Contains(r, BudgetAmount(p))
    ensures Contains(r, p.industry)
    ensures Contains(r, FocusArea(p.industry))
  {
    DealReplyMentions(p);
    DealLead + BudgetAmount(p) + DealApproval + p.industry + DealFocus + FocusArea(p.industry) + DealPlan
  }

  const SmallStartQuestion := "なるほど、小さく始めるというのは賢明ですね。\n\n具体的にどのくらいの予算感で、どの業務から始めることを想定されていますか？"
  const SmallStartBudgetTail := "の範囲内なら、私の判断で進められます。"

  /** The reply to a small start without a price: the customer asks for the amount, then
      quotes the whole budget as within their own authority. */
  function SmallStartReply(p: Persona): (r: string)
    ensures SmallStartQuestion <= r
    ensures Contains(r, p.budget)
  {
    ContainsSelf(p.budget);
    ContainsRight(SmallStartQuestion, p.budget, p.budget);
    ContainsLeft(SmallStartQuestion + p.budget, SmallStartBudgetTail, p.budget);
    SmallStartQuestion + p.budget + SmallStartBudgetTail
  }

  const CaseStudyLead := "他社での導入事例があれば教えていただけますか？特に"
  const CaseStudyTail := "での実績は？"
  /** The placeholder text of a Python format field. */
  const IndustryPlaceholder := "{context['industry']}"

  /** The third reply of the engaged band as written: the literal lacks the f-string prefix,
      so the placeholder is shown verbatim instead of the persona's industry. */
  function AsWrittenCaseStudyReply(p: Persona): string
  {
    CaseStudyLead + IndustryPlaceholder + CaseStudyTail
  }

  /** The same reply with the industry filled in, as the neighbouring replies do. */
  function CaseStudyReply(p: Persona): string
  {
    CaseStudyLead + p.industry + CaseStudyTail
  }

  /** The trust bands of the canned replies, chosen from the trust before this turn. */
  datatype Band = Skeptical | Curious | Engaged | Convinced

  function BandOf(trust: int): (b: Band)
    ensures b == Skeptical <==> trust < 20
    ensures b == Curious <==> 20 <= trust < 50
    ensures b == Engaged <==> 50 <= trust < 80
    ensures b == Convinced <==> 80 <= trust
  {
    if trust < 20 then Skeptical
    else if trust < 50 then Curious
    else if trust < 80 then Engaged
    else Convinced
  }

  const SkepticalRpa := "なるほど。しかし、従来のRPAと何が違うのですか？単線的な自動化では例外処理で止まってしまうのが悩みです。"
  const SkepticalMechanism := "興味深いですが、具体的にどのような仕組みで動くのでしょうか？「AIで自動化」という説明だけでは判断できません。"
  const SkepticalIndustryLead := "当社は"
  const SkepticalIndustryTail := "ですが、業界特有の要件に対応できるのでしょうか？"
  const CuriousManagement := "なるほど、個別の専門エージェントが連携するという考え方は面白いですね。ただ、管理が煩雑になりませんか？"
  const CuriousSecurity := "セキュリティ面が心配です。社内データが学習に使われたり、外部に漏れたりすることはありませんか？"
  const CuriousDemo := "具体的なアウトプットイメージが湧きにくいです。Google Workspace上でどう動くのか、デモを見せていただけますか？"
  const EngagedPocLead := "かなり理解が深まりました。"
  const EngagedPocTail := "の範囲で、まずはPoC（概念実証）から始めることは可能でしょうか？"
  const EngagedTraining := "導入に際して、現場への説明や研修はどのようにサポートいただけますか？"
  const ConvincedNextStep := "詳しいご説明ありがとうございます。前向きに検討したいと思います。次のステップとして何を準備すればよいでしょうか？"
  const ConvincedProposal := "社内で稟議を上げるために、提案書をいただくことは可能でしょうか？"
  const ConvincedPresentation := "ぜひ上層部にも説明いただきたいのですが、プレゼンの機会を設けられますか？"

  /** The three canned replies of a band; one of them is picked at random. */
  function BandReplies(p: Persona, b: Band): (r: seq<string>)
    ensures |r| == 3
  {
    match b
    case Skeptical => [SkepticalRpa, SkepticalMechanism, SkepticalIndustryLead + p.industry + SkepticalIndustryTail]
    case Curious => [CuriousManagement, CuriousSecurity, CuriousDemo]
    case Engaged => [EngagedPocLead + p.budget + EngagedPocTail, EngagedTraining, CaseStudyReply(p)]
    case Convinced => [ConvincedNextStep, ConvincedProposal, ConvincedPresentation]
  }

  /** The band replies as app.py writes them: the engaged band's case-study reply keeps
      the raw placeholder instead of the industry. The session uses `BandReplies`. */
  function AsWrittenBandReplies(p: Persona, b: Band): (r: seq<string>)
    ensures |r| == 3
  {
    if b == Engaged then BandReplies(p, b)[2 := AsWrittenCaseStudyReply(p)] else BandReplies(p, b)
  }

  /** The replies generate_customer_response may give: the model's reply, the deal reply,
      the small-start reply, or one of the band's canned replies. */
  function CustomerReplies(p: Persona, trust: int, input: string, llmReply: Option<string>): (r: seq<string>)
    ensures r != []
  {
    if Answered(llmReply) then [llmReply.value]
    else if ProposesSmallStart(input) && NamesPrice(input) then [DealReply(p)]
    else if ProposesSmallStart(input) then [SmallStartReply(p)]
    else BandReplies(p, BandOf(trust))
  }
}
