/** What the manager scorer promises: category caps and value sets, the first-match order of
    the chained categories, the per-phrase danger penalty, score bounds, and the rules that
    override the score and the advice. */
module ScorerProperties {
  import opened Basics
  import opened Scorer

  /** The fields of the scorer's record, one by one. */
  lemma FeedbackFields(s: string)
    ensures var fb := ManagerFeedback(s);
      && fb.breakdown == CappedBreakdown(s)
      && fb.techScore == TechScore(s)
      && fb.strategyScore == Max(0, Strategy(s).points)
      && fb.score == (if |s| < MinLength then Min(TotalScore(s), 20) else TotalScore(s))
      && (RawOutcome(s).0 != [] ==> fb.feedback == RawOutcome(s).0)
      && (RawOutcome(s).1 != NoAdvice ==> fb.improvement == RawOutcome(s).1)
  {
  }

  /** The Micro-Agent chain awards one of its five values, or nothing. */
  lemma MicroAgentValues(s: string)
    ensures MicroAgent(s).points in {0, 5, 10, 12, 15, 20}
    ensures |MicroAgent(s).notes| <= 1
  {
  }

  /** Each Micro-Agent value is awarded exactly when its rule is the first one that matches. */
  lemma MicroAgentFirstMatch(s: string)
    ensures var m := MicroAgent(s).points;
      && (m == 20 <==> ContainsAny(s, GemRoles))
      && (m == 15 <==> !ContainsAny(s, GemRoles) && MentionsRoleSplit(s))
      && (m == 12 <==> !ContainsAny(s, GemRoles) && !MentionsRoleSplit(s) && ContainsAny(s, SingleResponsibility))
      && (m == 10 <==> !ContainsAny(s, GemRoles) && !MentionsRoleSplit(s) && !ContainsAny(s, SingleResponsibility)
                       && MentionsAgentCooperation(s))
      && (m == 0 <==> !ContainsAny(s, GemRoles) && !MentionsRoleSplit(s) && !ContainsAny(s, SingleResponsibility)
                      && !ContainsAny(s, AgentWords))
  {
  }

  /** The three state-management rules add up to at most 33 points before the cap of 25. */
  lemma StateManagementRange(s: string)
    ensures 0 <= StateManagement(s).points <= 33
    ensures |StateManagement(s).notes| <= 3
  {
  }

  /** The cycle rule and the plain-loop rule never both fire, so at most 33 points. */
  lemma OrganicLoopingRange(s: string)
    ensures 0 <= OrganicLooping(s).points <= 33
  {
  }

  /** The human-in-the-loop chain awards one of its values, or nothing. */
  lemma HumanInLoopValues(s: string)
    ensures HumanInLoop(s).points in {0, 8, 12, 15}
    ensures |HumanInLoop(s).notes| <= 1
  {
  }

  /** Human-in-the-loop is a first-match chain too: naming the concept (12 points) shadows a
      concrete approval UI (15 points) that appears later in the chain. */
  lemma HumanInLoopFirstMatch(s: string)
    ensures var h := HumanInLoop(s).points;
      && (MentionsHumanApproval(s) ==> h == 15)
      && (!MentionsHumanApproval(s) && MentionsHitl(s) ==> h == 12)
      && (h == 15 <==> MentionsHumanApproval(s) || (!MentionsHitl(s) && ContainsAny(s, ApprovalUiWords)))
      && (h == 8 <==> !MentionsHumanApproval(s) && !MentionsHitl(s) && !ContainsAny(s, ApprovalUiWords)
                      && ContainsAny(s, ReviewWords))
      && (h == 0 <==> !MentionsHumanApproval(s) && !MentionsHitl(s) && !ContainsAny(s, ApprovalUiWords)
                      && !ContainsAny(s, ReviewWords))
  {
  }

  /** The security bonus is 5 points per kind of measure mentioned. */
  lemma BonusValues(s: string)
    ensures Bonus(s).points == 5 * |Bonus(s).notes|
    ensures Bonus(s).points in {0, 5, 10}
  {
  }

  /** Strategy points range over [-15, 50]: the small-start rules award 10 or 5 but never
      both, and only the bad move subtracts. */
  lemma StrategyRange(s: string)
    ensures -15 <= Strategy(s).points <= 50
  {
    var small, price := ContainsAny(s, SmallStartWords), ContainsAny(s, PriceKeywords);
    var r4 := StrategyOpening(s);
    assert 0 <= r4.points <= 40;
    var r5 := Rule(r4, small && price, 10, NoteBeachhead);
    var r6 := Rule(r5, small && !price, 5, NoteSmallStartNoPrice);
    assert 0 <= r6.points <= 50;
    assert Strategy(s) == Rule(r6, DiscountsOnly(s), -15, NoteBadMove);
  }

  /** Every category of the reported breakdown stays within [0, its cap], and the
      first-match chains report their raw value, which never reaches their cap. */
  lemma CategoryCaps(s: string)
    ensures var b := ManagerFeedback(s).breakdown;
      && b.microAgent == MicroAgent(s).points
      && b.humanInLoop == HumanInLoop(s).points
      && 0 <= b.microAgent <= MicroAgentCap
      && 0 <= b.stateManagement <= StateManagementCap
      && 0 <= b.organicLooping <= OrganicLoopingCap
      && 0 <= b.humanInLoop <= HumanInLoopCap
  {
    FeedbackFields(s);
    MicroAgentValues(s);
    StateManagementRange(s);
    OrganicLoopingRange(s);
    HumanInLoopValues(s);
  }

  // ---------------------------------------------------------------- the danger penalty

  /** The hits are exactly the patterns whose phrase occurs in the input, and no more
      patterns than were scanned. */
  lemma {:induction false} DangerHitsSound(s: string, ps: seq<(string, Warning)>)
    ensures |DangerHits(s, ps)| <= |ps|
    ensures forall q :: q in DangerHits(s, ps) ==> q in ps && Contains(s, q.0)
    ensures forall i :: 0 <= i < |ps| && Contains(s, ps[i].0) ==> ps[i] in DangerHits(s, ps)
    decreases |ps|
  {
    if ps != [] {
      var init := ps[..|ps| - 1];
      DangerHitsSound(s, init);
      forall q | q in init ensures q in ps {
        var i :| 0 <= i < |init| && init[i] == q;
        assert ps[i] == q;
      }
      forall i | 0 <= i < |init| ensures ps[i] == init[i] {
      }
    }
  }

  /** One warning per hit, in the order of the hits. */
  lemma {:induction false} DangerNotesIndex(hits: seq<(string, Warning)>)
    ensures forall i :: 0 <= i < |hits| ==> DangerNotes(hits)[i] == DangerNote(hits[i].1)
    decreases |hits|
  {
    if hits != [] {
      var init := hits[..|hits| - 1];
      DangerNotesIndex(init);
      forall i | 0 <= i < |init| ensures hits[i] == init[i] {
      }
    }
  }

  /** The distinct danger phrases that occur in `s`. */
  function FoundDangerPhrases(s: string): set<string>
  {
    PhrasesFound(s, DangerPatterns)
  }

  predicate DistinctPhrases(ps: seq<(string, Warning)>)
  {
    forall i, j :: 0 <= i < j < |ps| ==> ps[i].0 != ps[j].0
  }

  /** The phrases of `ps` that occur in `s`, as a set. */
  function PhrasesFound(s: string, ps: seq<(string, Warning)>): set<string>
  {
    set i | 0 <= i < |ps| && Contains(s, ps[i].0) :: ps[i].0
  }

  /** Growing the pattern list by one adds at most its phrase to the phrases found. */
  lemma PhrasesFoundSnoc(s: string, ps: seq<(string, Warning)>)
    requires ps != []
    ensures var init, last := ps[..|ps| - 1], ps[|ps| - 1];
      PhrasesFound(s, ps) == PhrasesFound(s, init) + (if Contains(s, last.0) then {last.0} else {})
  {
    var init, last := ps[..|ps| - 1], ps[|ps| - 1];
    var extra: set<string> := if Contains(s, last.0) then {last.0} else {};
    forall p | p in PhrasesFound(s, ps) ensures p in PhrasesFound(s, init) + extra {
      var i :| 0 <= i < |ps| && Contains(s, ps[i].0) && ps[i].0 == p;
      if i < |init| {
        assert init[i] == ps[i];
      }
    }
    forall p | p in PhrasesFound(s, init) + extra ensures p in PhrasesFound(s, ps) {
      if p in PhrasesFound(s, init) {
        var i :| 0 <= i < |init| && Contains(s, init[i].0) && init[i].0 == p;
        assert ps[i] == init[i];
      } else {
        assert ps[|ps| - 1].0 == p;
      }
    }
  }

  /** In a list of distinct phrases, the last phrase is not among those found earlier. */
  lemma LastPhraseIsNew(s: string, ps: seq<(string, Warning)>)
    requires ps != [] && DistinctPhrases(ps)
    ensures ps[|ps| - 1].0 !in PhrasesFound(s, ps[..|ps| - 1])
  {
    var init := ps[..|ps| - 1];
    forall i | 0 <= i < |init| ensures init[i].0 != ps[|ps| - 1].0 {
      assert init[i] == ps[i];
    }
  }

  /** With distinct phrases, the hit list has one entry per distinct phrase found. */
  lemma {:induction false} HitsAreDistinctPhrases(s: string, ps: seq<(string, Warning)>)
    requires DistinctPhrases(ps)
    ensures |DangerHits(s, ps)| == |PhrasesFound(s, ps)|
    decreases |ps|
  {
    if ps != [] {
      var init := ps[..|ps| - 1];
      assert DistinctPhrases(init) by {
        forall i, j | 0 <= i < j < |init| ensures init[i].0 != init[j].0 {
          assert init[i] == ps[i] && init[j] == ps[j];
        }
      }
      HitsAreDistinctPhrases(s, init);
      PhrasesFoundSnoc(s, ps);
      LastPhraseIsNew(s, ps);
    }
  }

  /** The penalty is 15 points for each distinct danger phrase that occurs in the input,
      so at most 90. */
  lemma PenaltyPerDistinctPhrase(s: string)
    ensures DangerPenalty(s) == DangerPenaltyPerPhrase * |FoundDangerPhrases(s)|
    ensures 0 <= DangerPenalty(s) <= DangerPenaltyPerPhrase * |DangerPatterns|
  {
    assert DistinctPhrases(DangerPatterns);
    HitsAreDistinctPhrases(s, DangerPatterns);
    DangerHitsSound(s, DangerPatterns);
  }

  // ---------------------------------------------------------------- notes and advice

  lemma ConcatPrefix(d: seq<Note>, f: seq<Note>, g: seq<Note>)
    ensures |d + f + g| == |d| + |f| + |g|
    ensures (d + f + g)[..|d|] == d
    ensures (d + f + g)[|d|..|d| + |f|] == f
    ensures (d + f + g)[|d| + |f|..] == g
  {
    assert (d + f + g)[..|d|] == d;
    assert (d + f + g)[|d|..|d| + |f|] == f;
    assert (d + f + g)[|d| + |f|..] == g;
  }

  /** The collected notes are the warnings, then the category and bonus notes, then the
      strategy notes. */
  lemma CollectedNotesLayout(s: string)
    ensures var hits := DangerHits(s, DangerPatterns);
      && |CollectedNotes(s)| == |hits| + |FeedbackPoints(s)| + |Strategy(s).notes|
      && CollectedNotes(s)[..|hits|] == DangerNotes(hits)
      && CollectedNotes(s)[|hits|..|hits| + |FeedbackPoints(s)|] == FeedbackPoints(s)
      && CollectedNotes(s)[|hits| + |FeedbackPoints(s)|..] == Strategy(s).notes
  {
    ConcatPrefix(DangerNotes(DangerHits(s, DangerPatterns)), FeedbackPoints(s), Strategy(s).notes);
  }

  /** Grading keeps the notes it is given as a prefix and only ever appends. */
  lemma GradedExtends(penalty: int, total: int, notes: seq<Note>)
    ensures notes <= Graded(penalty, total, notes).0
    ensures penalty > 0 ==> Graded(penalty, total, notes).1 == DangerAdvice
    ensures Graded(penalty, total, notes).1 != NoAdvice
  {
  }

  /** An input of normal length that contains a danger phrase gets the fixed danger advice,
      and its notes open with one warning per phrase hit, in scan order. */
  lemma DangerAdviceWins(s: string)
    requires |s| >= MinLength && DangerPenalty(s) > 0
    ensures var hits := DangerHits(s, DangerPatterns);
      && RawOutcome(s).1 == DangerAdvice
      && |hits| <= |RawOutcome(s).0|
      && forall i :: 0 <= i < |hits| ==> RawOutcome(s).0[i] == DangerNote(hits[i].1)
  {
    var hits, notes := DangerHits(s, DangerPatterns), CollectedNotes(s);
    var graded := Graded(DangerPenalty(s), TotalScore(s), notes);
    assert RawOutcome(s) == graded;
    CollectedNotesLayout(s);
    GradedExtends(DangerPenalty(s), TotalScore(s), notes);
    DangerNotesIndex(hits);
    forall i | 0 <= i < |hits| ensures graded.0[i] == DangerNote(hits[i].1) {
      assert graded.0[i] == notes[i] == DangerNotes(hits)[i];
    }
  }

  // ---------------------------------------------------------------- scores

  /** The technical score is the capped categories plus the bonus minus the penalty, never
      below 0 and at most 110. */
  lemma TechScoreBounds(s: string)
    ensures TechScore(s) == Max(0, CappedBreakdown(s).Sum() + Bonus(s).points - DangerPenalty(s))
    ensures 0 <= TechScore(s) <= 110
  {
    CategoryCaps(s);
    FeedbackFields(s);
    BonusValues(s);
    PenaltyPerDistinctPhrase(s);
  }

  /** The reported strategy score is the raw one floored at 0, so within [0, 50]. */
  lemma StrategyReported(s: string)
    ensures ManagerFeedback(s).strategyScore == Max(0, Strategy(s).points)
    ensures 0 <= ManagerFeedback(s).strategyScore <= 50
  {
    FeedbackFields(s);
    StrategyRange(s);
  }

  /** The final score is capped at 100 but not floored at 0: a discount without narrowing the
      scope can take it down to -15. */
  lemma ScoreRange(s: string)
    ensures -15 <= ManagerFeedback(s).score <= 100
    ensures |s| >= MinLength ==> ManagerFeedback(s).score == Min(TechScore(s) + Strategy(s).points, 100)
  {
    FeedbackFields(s);
    TechScoreBounds(s);
    StrategyRange(s);
  }

  /** An input shorter than 30 characters scores at most 20 and always gets the "explain the
      mechanism" advice, with the too-short note first, whatever the earlier rules chose. */
  lemma ShortInputOverride(s: string)
    requires |s| < MinLength
    ensures var fb := ManagerFeedback(s);
      && fb.score == Min(TotalScore(s), 20) && fb.score <= 20
      && fb.improvement == ExplainAdvice
      && fb.feedback != [] && fb.feedback[0] == NoteTooShort
  {
    FeedbackFields(s);
  }

  // ---------------------------------------------------------------- the defaults

  /** Points never come without notes: a positive technical score without a danger penalty
      leaves a category or bonus note, and strategy points leave a strategy note. */
  lemma PointsLeaveNotes(s: string)
    ensures TechScore(s) > 0 && DangerPenalty(s) == 0 ==> FeedbackPoints(s) != []
    ensures Strategy(s).points != 0 ==> Strategy(s).notes != []
  {
    if TechScore(s) > 0 && DangerPenalty(s) == 0 {
      assert MicroAgent(s).points > 0 || StateManagement(s).points > 0 || OrganicLooping(s).points > 0
          || HumanInLoop(s).points > 0 || Bonus(s).points > 0;
    }
  }

  /** Grading appends a note below 30 and from 70 up, so only a middle score without
      danger can leave an empty list, and only when it was given one. */
  lemma GradedNonEmpty(penalty: int, total: int, notes: seq<Note>)
    requires penalty > 0 || 30 <= total < 70 ==> notes != []
    ensures Graded(penalty, total, notes).0 != []
  {
  }

  /** Before the length rule, the graded notes are never empty: a danger hit leaves its
      warning, a low or high score appends a note, and a middle score needs points that
      left notes. */
  lemma GradedNotesNonEmpty(s: string)
    ensures Graded(DangerPenalty(s), TotalScore(s), CollectedNotes(s)).0 != []
  {
    var penalty, total, notes := DangerPenalty(s), TotalScore(s), CollectedNotes(s);
    CollectedNotesLayout(s);
    if penalty == 0 && 30 <= total < 70 {
      PointsLeaveNotes(s);
      assert TechScore(s) > 0 || Strategy(s).points > 0;
    }
    GradedNonEmpty(penalty, total, notes);
  }

  /** The scorer always produces its own notes and advice, so the two defaults for an empty
      list and an empty advice string are never used. */
  lemma DefaultsNeverUsed(s: string)
    ensures RawOutcome(s).0 != [] && RawOutcome(s).1 != NoAdvice
    ensures ManagerFeedback(s).feedback == RawOutcome(s).0
    ensures ManagerFeedback(s).improvement == RawOutcome(s).1
  {
    GradedNotesNonEmpty(s);
    GradedExtends(DangerPenalty(s), TotalScore(s), CollectedNotes(s));
    FeedbackFields(s);
  }
}
