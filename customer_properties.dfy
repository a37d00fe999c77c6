/** What the customer side promises: trust stays within [0, 100], the fallback update never
    lowers it and equals one capped sum, the canned reply depends on the trust before the
    turn and not on this turn's keywords, and the replies name the persona's details. */
module CustomerProperties {
  import opened Basics
  import opened Customer

  /** Every catalog persona exists: init_persona always has something to choose. */
  lemma CatalogPersonaExists()
    ensures exists p :: FromCatalogs(p)
  {
    assert FromCatalogs(Persona(Industries[0], Positions[0], Budgets[0], PainPoint(Industries[0]), Personalities[0]));
  }

  /** Capping after each increment is the same as capping the whole sum once. */
  lemma CapTwice(a: int, b: int)
    requires b >= 0
    ensures Min(Min(a, TrustCap) + b, TrustCap) == Min(a + b, TrustCap)
  {
  }

  /** The fallback update is one capped sum: 10 per good keyword plus the small-start bonus. */
  lemma FallbackTrustClosedForm(trust: int, input: string)
    ensures var bonus := if ProposesSmallStart(input) && NamesPrice(input) then DealBonus
                         else if ProposesSmallStart(input) then SmallStartBonus else 0;
      FallbackTrust(trust, input)
        == Min(trust + TrustPerKeyword * CountContained(input, GoodKeywords) + bonus, TrustCap)
  {
    var hits := CountContained(input, GoodKeywords);
    if ProposesSmallStart(input) && NamesPrice(input) {
      CapTwice(trust + hits * TrustPerKeyword, DealBonus);
    } else if ProposesSmallStart(input) {
      CapTwice(trust + hits * TrustPerKeyword, SmallStartBonus);
    }
  }

  /** Without a model reply, trust never goes down (below the cap) and rises by at least 10
      per good keyword until it reaches 100. */
  lemma FallbackNeverLowers(trust: int, input: string)
    requires trust <= TrustCap
    ensures trust <= FallbackTrust(trust, input) <= TrustCap
    ensures FallbackTrust(trust, input) == TrustCap
         || FallbackTrust(trust, input) >= trust + TrustPerKeyword * CountContained(input, GoodKeywords)
  {
    FallbackTrustClosedForm(trust, input);
  }

  /** An interested tone raises trust, a worried one lowers it, never past the bounds. */
  lemma ToneTrustDirection(trust: int, reply: string)
    requires TrustInRange(trust)
    ensures TrustInRange(ToneTrust(trust, reply))
    ensures Contains(reply, "面白い") || Contains(reply, "興味深い") ==> ToneTrust(trust, reply) >= trust
    ensures ToneTrust(trust, reply) < trust ==> Contains(reply, "不安") || Contains(reply, "心配")
  {
  }

  /** Trust stays within [0, 100] on every update. */
  lemma TrustStaysInRange(trust: int, input: string, llmReply: Option<string>)
    requires TrustInRange(trust)
    ensures TrustInRange(NextTrust(trust, input, llmReply))
  {
    if Answered(llmReply) {
      ToneTrustDirection(trust, llmReply.value);
    } else {
      FallbackNeverLowers(trust, input);
    }
  }

  /** Without a small-start proposal, the canned reply is chosen from the trust before this
      turn: two inputs with different keyword counts get the same candidate replies, even
      though they leave different trust levels behind. */
  lemma ReplyIgnoresKeywordBump(p: Persona, trust: int, input1: string, input2: string)
    requires !ProposesSmallStart(input1) && !ProposesSmallStart(input2)
    ensures CustomerReplies(p, trust, input1, None) == CustomerReplies(p, trust, input2, None)
    ensures CustomerReplies(p, trust, input1, None) == BandReplies(p, BandOf(trust))
  {
  }

  /** A small start always gets its special reply, whatever the trust and band. */
  lemma SmallStartOverridesBand(p: Persona, trust1: int, trust2: int, input: string)
    requires ProposesSmallStart(input)
    ensures CustomerReplies(p, trust1, input, None) == CustomerReplies(p, trust2, input, None)
    ensures NamesPrice(input) ==> CustomerReplies(p, trust1, input, None) == [DealReply(p)]
    ensures !NamesPrice(input) ==> CustomerReplies(p, trust1, input, None) == [SmallStartReply(p)]
  {
  }

  /** Every catalog budget is quoted as its amount, which stops at the parenthesis. */
  lemma CatalogBudgetAmounts(p: Persona)
    requires FromCatalogs(p)
    ensures |BudgetAmount(p)| < |p.budget| && p.budget[|BudgetAmount(p)|] == '（'
  {
    assert '（' in p.budget;
  }

  /** As written, the case-study reply is the same for every persona: it is the corrected
      reply for an industry literally named by the placeholder. */
  lemma AsWrittenCaseStudyIgnoresPersona(p: Persona, q: Persona)
    ensures AsWrittenCaseStudyReply(p) == AsWrittenCaseStudyReply(q)
    ensures AsWrittenCaseStudyReply(p) == CaseStudyReply(p.(industry := IndustryPlaceholder))
    ensures Contains(AsWrittenCaseStudyReply(p), IndustryPlaceholder)
  {
    ContainsSelf(IndustryPlaceholder);
    ContainsRight(CaseStudyLead, IndustryPlaceholder, IndustryPlaceholder);
    ContainsLeft(CaseStudyLead + IndustryPlaceholder, CaseStudyTail, IndustryPlaceholder);
  }

  /** For every catalog persona the reply shown differs from the intended one. */
  lemma AsWrittenCaseStudyDiffers(p: Persona)
    requires FromCatalogs(p)
    ensures AsWrittenCaseStudyReply(p) != CaseStudyReply(p)
  {
    assert |p.industry| < |IndustryPlaceholder|;
    assert |AsWrittenCaseStudyReply(p)| != |CaseStudyReply(p)|;
  }

  /** For a catalog persona the as-written band replies differ from the corrected ones
      exactly in the engaged band, and there only in the case-study reply. */
  lemma AsWrittenBandRepliesDiffer(p: Persona, b: Band)
    requires FromCatalogs(p)
    ensures AsWrittenBandReplies(p, b) == BandReplies(p, b) <==> b != Engaged
    ensures AsWrittenBandReplies(p, b)[..2] == BandReplies(p, b)[..2]
    ensures AsWrittenCaseStudyReply(p) in AsWrittenBandReplies(p, Engaged)
  {
    if b == Engaged {
      AsWrittenCaseStudyDiffers(p);
      assert AsWrittenBandReplies(p, b)[2] != BandReplies(p, b)[2];
    }
    assert AsWrittenBandReplies(p, Engaged)[2] == AsWrittenCaseStudyReply(p);
  }

  /** The corrected case-study reply names the persona's industry, tells different
      industries apart, and is among the replies of the engaged band. */
  lemma CaseStudyNamesIndustry(p: Persona, q: Persona)
    ensures Contains(CaseStudyReply(p), p.industry)
    ensures CaseStudyReply(p) == CaseStudyReply(q) <==> p.industry == q.industry
    ensures CaseStudyReply(p) in BandReplies(p, Engaged)
  {
    ContainsSelf(p.industry);
    ContainsRight(CaseStudyLead, p.industry, p.industry);
    ContainsLeft(CaseStudyLead + p.industry, CaseStudyTail, p.industry);
    if CaseStudyReply(p) == CaseStudyReply(q) {
      var r := CaseStudyReply(p);
      assert |p.industry| == |q.industry|;
      assert r[|CaseStudyLead|..|CaseStudyLead| + |p.industry|] == p.industry;
      assert CaseStudyReply(q)[|CaseStudyLead|..|CaseStudyLead| + |q.industry|] == q.industry;
    }
  }
}
