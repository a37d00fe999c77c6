# Sales Dojo: a verified model of the scoring, customer and session core

The Sales Dojo is a role-play trainer. A salesperson pitches an agent-based automation
architecture to a simulated customer. After every message, a "manager" grades the pitch
against a keyword rubric with four technical categories:

- Micro-Agent (30)
- state management (25)
- organic looping (25)
- human-in-the-loop (20)

On top of these the manager adds a security bonus, subtracts a penalty for each danger
phrase, and adds strategy points for a beachhead-style offer. The customer persona is drawn
at random from fixed catalogs. Its trust level moves with the salesperson's keywords, and it
answers with a canned reply that depends on that trust. Ending the session produces a report:
the average score, the category averages, the strongest and weakest category, and a closing
recommendation.

This project models that core in Dafny:

- `basics.dfy` (module `Basics`): Python's substring test `p in s` and `any(...)` over a
  keyword list, the keyword count, `str.split(c)[0]`, and `min`/`max`.
- `scorer.dfy` (module `Scorer`): the keyword path of `generate_manager_feedback`.
  - Specification functions state each rule group, the caps, the penalty, the advice choice
    and the final record.
  - Methods follow the code step by step: the danger loop and the running lists of notes.
  - Each method is proved equal to its specification function.
- `scorer_properties.dfy` (module `ScorerProperties`): lemmas about the rubric. They cover
  value sets, first-match order, the per-phrase penalty, score bounds, the length override,
  and the defaults that are never used.
- `report.dfy` (module `Report`): `generate_final_report` as a function and as a two-pass
  method proved equal to it, plus `get_recommendation`, `get_score_class` and
  `get_review_box_class`.
- `report_properties.dfy` (module `ReportProperties`): lemmas about the report. They cover
  when it exists, the averages as exact means within the rubric's bounds, strength and
  weakness as the first maximal and first minimal category, and the recommendation and
  colour bands.
- `customer.dfy` and `customer_properties.dfy` (modules `Customer` and
  `CustomerProperties`): the persona catalogs, the greeting, the trust update of
  `generate_customer_response` and the replies it may give, with lemmas about them.
- `session.dfy` (module `Session`): the `st.session_state` fields as a class
  `SalesSession`. Its methods are the handlers that change the session:
  - the initial state;
  - `init_persona`;
  - the customer's response;
  - the chat-input turn handler;
  - the end-session button;
  - the new-session button.

  Every handler preserves the invariant `Valid`:
  - trust stays within [0, 100];
  - an active simulation has a persona;
  - the persona, once drawn, comes from the catalogs;
  - the chat alternates greeting, message, reply, message, reply, …;
  - the k-th log entry is turn k+1 and records the k-th message;
  - every logged score lies within the rubric's bounds.

Notes, warnings and advice are tags (`Note`, `Warning`, `Advice`). `NoteText`,
`WarningText` and `AdviceText` give their exact wording. A language model's answer is a
parameter of type `Option<string>`: `None` or an empty answer selects the canned path, as
Python's truthiness test does.

The manager prompt asks the model for a score from 0 to 100 (app.py:128). The keyword
path does not keep to that range: it floors only the technical score at 0, then adds the
strategy points, which can be -15, and caps the sum at 100 (app.py:466-469). The model
follows the code: `ScorerProperties.ScoreRange` proves the score lies in [-15, 100].

## Model

| member | source | states |
|---|---|---|
| Basics.ContainsIffOccurs | app.py:340 | `p in s` holds exactly when `p` occurs at some index of `s` |
| Basics.ContainsAnyIffSome | app.py:349 | `any(x in s for x in keys)` holds exactly when some key of the list occurs in `s` |
| Basics.CountContained | app.py:540 | the number of good keywords found lies in [0, number of keywords] and is 0 exactly when none occurs |
| Basics.BeforeFirst | app.py:553 | `split('（')[0]` is a prefix without `（` that stops right before the first `（`, or the whole string when there is none |
| Scorer.MicroAgent | app.py:346-363 | the Micro-Agent chain awards points exactly when it adds its note |
| Scorer.StateManagement | app.py:367-377 | the state-management rules award points exactly when they add notes |
| Scorer.OrganicLooping | app.py:381-394 | the looping rules award points exactly when they add notes |
| Scorer.HumanInLoop | app.py:398-411 | the human-in-the-loop chain awards points exactly when it adds its note |
| Scorer.Bonus | app.py:415-422 | the security bonus is non-zero exactly when a bonus note is added |
| Scorer.StrategyOpening | app.py:428-448 | the four opening strategy rules award nothing when they add no note |
| Scorer.Strategy | app.py:424-463 | the strategy rules leave the score at 0 when they add no note |
| Scorer.DangerNotes | app.py:339-341 | one warning note per danger hit |
| Scorer.ScanDangerPhrases | app.py:328-342 | the loop over the six patterns yields one warning per phrase found, in pattern order, and 15 points per phrase |
| Scorer.ScoreMicroAgent | app.py:346-365 | the if/elif chain appends exactly the Micro-Agent note and returns its points |
| Scorer.ScoreStateManagement | app.py:367-379 | the three independent rules append their notes in order and sum their points |
| Scorer.ScoreOrganicLooping | app.py:381-396 | the cycle/loop chain plus the two independent rules append their notes and sum their points |
| Scorer.ScoreHumanInLoop | app.py:398-413 | the approval chain appends exactly its first matching note and returns its points |
| Scorer.ScoreBonus | app.py:415-422 | the two security rules append their notes and add 5 points each |
| Scorer.ScoreStrategy | app.py:424-463 | the strategy rules, including the small-start pair and the discount penalty, append their notes and sum their points |
| Scorer.ChooseAdvice | app.py:474-490 | advice by penalty and then by score band, with the notes for low, high and near-perfect scores appended |
| Scorer.ManagerFeedback | app.py:318-505 | the keyword path's record always carries notes and an advice (the defaults of app.py:503-504 guard this), its score is at most 100 and at most 20 for an input under 30 characters, and its strategy score is floored at 0 |
| Scorer.GenerateManagerFeedback | app.py:318-505 | the keyword path returns exactly the record `ManagerFeedback` describes |
| ScorerProperties.MicroAgentValues | app.py:346-363 | Micro-Agent awards one of 0, 5, 10, 12, 15, 20 and at most one note |
| ScorerProperties.MicroAgentFirstMatch | app.py:349-363 | each Micro-Agent value is awarded exactly when its rule is the first that matches |
| ScorerProperties.StateManagementRange | app.py:367-377 | state management totals within [0, 33] before the cap, with at most three notes |
| ScorerProperties.OrganicLoopingRange | app.py:381-394 | organic looping totals within [0, 33] before the cap |
| ScorerProperties.HumanInLoopValues | app.py:398-411 | human-in-the-loop awards one of 0, 8, 12, 15 and at most one note |
| ScorerProperties.HumanInLoopFirstMatch | app.py:400-411 | the chain is first-match: naming the concept (12) shadows a concrete approval UI (15) |
| ScorerProperties.BonusValues | app.py:415-422 | the bonus is 5 per kind of measure, so 0, 5 or 10 |
| ScorerProperties.StrategyRange | app.py:424-463 | strategy points lie in [-15, 50] |
| ScorerProperties.CategoryCaps | app.py:365-413 | each reported category lies within [0, its cap]; the first-match chains report their raw value |
| ScorerProperties.DangerHitsSound | app.py:339-340 | the hits are exactly the patterns whose phrase occurs in the input |
| ScorerProperties.DangerNotesIndex | app.py:339-341 | the i-th warning is the warning of the i-th hit |
| ScorerProperties.HitsAreDistinctPhrases | app.py:329-342 | with distinct phrases, the number of hits equals the number of distinct phrases found |
| ScorerProperties.PenaltyPerDistinctPhrase | app.py:338-342 | the penalty is 15 per distinct danger phrase found, at most 90 |
| ScorerProperties.CollectedNotesLayout | app.py:472 | the notes split into three consecutive slices: the warnings, then exactly the category and bonus notes, then exactly the strategy notes |
| ScorerProperties.GradedExtends | app.py:475-490 | grading only appends notes, a penalty forces the danger advice, and some advice is always chosen |
| ScorerProperties.DangerAdviceWins | app.py:476-477 | an input of normal length with a danger phrase gets the danger advice, and its notes open with its warnings in scan order |
| ScorerProperties.TechScoreBounds | app.py:466-467 | the technical score is the capped sum plus the bonus minus the penalty, floored at 0, and at most 110 |
| ScorerProperties.StrategyReported | app.py:501 | the reported strategy score is the raw one floored at 0, within [0, 50] |
| ScorerProperties.ScoreRange | app.py:465-469 | the final score lies in [-15, 100] and is min(tech + strategy, 100) for inputs of normal length |
| ScorerProperties.ShortInputOverride | app.py:492-496 | an input under 30 characters scores at most 20, gets the explain-the-mechanism advice, and its first note is the too-short warning |
| ScorerProperties.PointsLeaveNotes | app.py:344-463 | a positive technical score without a danger penalty leaves at least one category or bonus note, and non-zero strategy points leave at least one strategy note |
| ScorerProperties.GradedNonEmpty | app.py:475-490 | grading leaves a non-empty list unless it got an empty one for a middle score without danger |
| ScorerProperties.GradedNotesNonEmpty | app.py:472-490 | the graded notes are never empty |
| ScorerProperties.DefaultsNeverUsed | app.py:503-504 | the defaults for an empty note list and an empty advice are never used |
| Report.AllCategories | app.py:602-607 | every category is one of the four averaged |
| Report.GenerateFinalReport | app.py:593-636 | the summing passes return exactly the report `FinalReport` describes |
| Report.FinalReport | app.py:593-636 | there is a report exactly when the log is non-empty; it counts the turns, carries the final trust, and recommends by its own average score and that trust |
| ReportProperties.AverageScoreIsMean | app.py:599 | the average score is the mean of the logged scores |
| ReportProperties.ScoreTotalBounds | app.py:599 | logged scores within [-15, 100] sum to within [-15n, 100n] |
| ReportProperties.CategoryTotalBounds | app.py:609-612 | category points within [0, cap] sum to within [0, cap × n] |
| ReportProperties.ScorerFeedbackBounds | app.py:465-503 | the scorer's record has its score in [-15, 100] and each category within its cap |
| ReportProperties.MeanWithin | app.py:599-615 | a mean of values within [lo, hi] is within [lo, hi] |
| ReportProperties.ReportAveragesInRange | app.py:599-615 | over logged scorer records, the average score lies in [-15, 100] and each category average within [0, its cap] |
| ReportProperties.CategoryNamesDistinct | app.py:621-626 | the four display names are pairwise distinct |
| ReportProperties.FirstMaxIsFirstLargest | app.py:618 | `max(..., key=...)` picks a largest category, and no earlier category is as large |
| ReportProperties.FirstMinIsFirstSmallest | app.py:619 | `min(..., key=...)` picks a smallest category, and no earlier category is as small |
| ReportProperties.StrengthAndWeakness | app.py:617-634 | strength and weakness name the first largest and first smallest average; they coincide only when all averages are equal |
| Report.Recommendation | app.py:638-649 | each of the five recommendations is returned exactly in its band of average score and trust, the bands checked in source order |
| Report.ScoreClass | app.py:651-657 | the score class is high exactly from 70, middle exactly in [40, 70), low exactly below 40 |
| Report.ReviewBoxClass | app.py:659-665 | the review box is plain exactly from 70, a warning exactly in [40, 70), a danger exactly below 40 |
| ReportProperties.ClassesAgree | app.py:651-665 | the score class and the review-box class switch at the same thresholds, 70 and 40 |
| Customer.PainPoint | app.py:265 | the pain point starts with the industry and adds the fixed suffix |
| Customer.BandOf | app.py:566-584 | the reply band is chosen by trust: below 20, below 50, below 80, and from 80 |
| Customer.BandReplies | app.py:566-589 | each band offers three replies |
| Customer.AsWrittenBandReplies | app.py:566-589 | the band replies as written, with the raw placeholder in the engaged band; three per band |
| Customer.Greeting | app.py:277-294 | the greeting is never empty: the model's non-empty answer when it gave one, otherwise a canned greeting naming the industry, position, pain point and budget |
| Customer.NextTrust | app.py:527-561 | trust stays within [0, 100]; without a model answer it never falls; with one it falls only on a worried tone |
| Customer.DealReply | app.py:553-557 | the deal reply quotes the budget amount before the parenthesis, the industry and its first area to automate |
| Customer.SmallStartReply | app.py:558-564 | the small-start reply opens with the question about budget and scope and quotes the persona's whole budget |
| Customer.CustomerReplies | app.py:525-591 | the candidate replies are never empty: the model's reply, the deal or small-start reply, or the band's three |
| Customer.MockGreetingMentions | app.py:290-294 | the canned greeting names the industry, position, pain point and budget |
| CustomerProperties.CatalogPersonaExists | app.py:256-267 | the catalogs yield at least one persona |
| CustomerProperties.FallbackTrustClosedForm | app.py:536-561 | without a model reply, trust becomes min(trust + 10 × keywords + small-start bonus, 100) |
| CustomerProperties.FallbackNeverLowers | app.py:536-561 | without a model reply, trust never falls, stays at most 100, and rises by 10 per good keyword until capped |
| CustomerProperties.ToneTrustDirection | app.py:527-533 | an interested tone never lowers trust, trust falls only for a worried tone, and it stays in [0, 100] |
| CustomerProperties.TrustStaysInRange | app.py:527-561 | every trust update keeps trust within [0, 100] |
| CustomerProperties.ReplyIgnoresKeywordBump | app.py:536-591 | without a small start, the band comes from the trust before this turn's keyword bump |
| CustomerProperties.SmallStartOverridesBand | app.py:550-564 | a small start gets the deal reply (with a price) or the small-start reply (without), whatever the trust |
| CustomerProperties.CatalogBudgetAmounts | app.py:553 | every catalog budget has a parenthesised scope, so the quoted amount is a strict prefix |
| CustomerProperties.AsWrittenCaseStudyIgnoresPersona | app.py:582 | the case-study reply as written is the same for every persona and shows the raw placeholder |
| CustomerProperties.AsWrittenCaseStudyDiffers | app.py:582 | for every catalog persona, the reply as written differs from the intended one |
| CustomerProperties.AsWrittenBandRepliesDiffer | app.py:577-583 | for every catalog persona, the replies as written equal the corrected ones in every band but the engaged band; there they differ only in the third reply, which is the as-written case-study reply |
| CustomerProperties.CaseStudyNamesIndustry | app.py:580-583 | the corrected reply names the persona's industry, distinguishes industries, and is an engaged-band reply |
| Session.ScoredLogReportInRange | app.py:593-636 | a log written by the turn handler yields a report counting its turns, with averages within the rubric's bounds |
| Session.AlternatesAppend | app.py:799-814 | a turn keeps the chat alternating, and half the message count after the user's message is the next turn number |
| Session.AllInBoundsAppend | app.py:803-808 | appending a record within the rubric's bounds keeps every logged record within them |
| Session.SalesSession.constructor | app.py:203-212 | the initial state: no messages, empty log, inactive, no persona, trust 0, no report |
| Session.SalesSession.InitPersona | app.py:254-275 | a catalog persona, the chat reset to its greeting, empty log, active, trust 0, stored report kept |
| Session.SalesSession.CustomerRespond | app.py:507-591 | trust becomes `NextTrust` within [0, 100], the reply is one of `CustomerReplies` for the trust before the update, nothing else changes |
| Session.SalesSession.RecordTurn | app.py:799-814 | the user message, the log entry numbered by turn and the reply are appended, and the invariant holds |
| Session.SalesSession.TakeTurn | app.py:799-814 | the log gains the scorer's record as the next turn, the chat gains the message and a possible reply, and trust becomes `NextTrust` |
| Session.SalesSession.SubmitTurn | app.py:798-816 | an empty message or an inactive session changes nothing; otherwise one turn is taken |
| Session.SalesSession.EndSession | app.py:886-893 | with a turn logged, the report is stored and the simulation stops; otherwise nothing changes |
| Session.SalesSession.StartNewSession | app.py:896-924 | under a stored report, the report is dropped and a new scenario starts with a catalog persona and its greeting; otherwise nothing changes |

## Left out

- The language-model paths are left out: client setup and `call_llm` (app.py:217-250), and the JSON branch of `generate_manager_feedback` (app.py:304-316).
  - The manager is always the keyword scorer.
  - A customer or greeting answer from the model is a parameter.
  - The switch back to mock mode after an API error is not modelled.
- The prompts and the chat history that would be sent to the model (app.py:281-284, 299-304, 510-523) are left out; they only feed the model.
- `random.choice` is modelled as a nondeterministic choice (`:|`).
  - The persona is some catalog persona.
  - The band reply is some member of its band.
  - No distribution is modelled.
- Scores and averages are exact rationals; `round(..., 1)` (app.py:615, 630) is not modelled.
  - Because of this, strength and weakness are chosen from exact averages. Python compares averages rounded to one decimal, so two categories closer than the rounding can tie there and resolve to the earlier one.
- The `'breakdown' in log['feedback']` guard and `.get(key, 0)` (app.py:610-612) are left out: keyword-path records always carry all four categories.
- The wording of notes, warnings and advice is modelled as tags with text functions. The session stores the tags, not the rendered strings.
- Audio recording and transcription (app.py:38-59, 762-796), the UI layout, CSS, sidebar, metrics, the spinner, `time.sleep` (app.py:812) and `st.rerun` are left out as presentation and timing.
- The voice text that overrides typed text (app.py:796) is left out. `SubmitTurn` takes the final prompt.
- The mode toggle `llm_mode` (app.py:213-214, 680-688) is left out, since the model's answers are parameters.
- The sidebar's new-scenario button (app.py:693-695) calls `init_persona` and is modelled by `InitPersona` itself.
- Session.SalesSession.Valid: the invariant keeps each logged record within the rubric's bounds, not equal to the scorer's output. `SubmitTurn` and `TakeTurn` state the exact record for each turn, and `ScoredLogReportInRange` covers whole logs.
- Session.SalesSession.TakeTurn: the scorer and the customer are evaluated before the three appends rather than between them. The customer reads the last six chat messages (app.py:513-516), but only to build the model prompt, which is left out; the modelled reply and trust depend only on the persona, the trust, the message and the model's answer. So the reordering does not change the resulting state.
- Session.SalesSession.EndSession: the stored report equals `FinalReport` when the button is pressed. This is not kept as an invariant, because later turns are not possible until a new scenario starts.
- Customer.BandReplies: the engaged band uses the corrected case-study reply that names the persona's industry, not the literal of app.py:582. `AsWrittenBandReplies` keeps the literal, and `AsWrittenBandRepliesDiffer` shows the two lists differ only there.
- Customer.CustomerReplies: built on `BandReplies`, so the as-written engaged reply with the raw placeholder is not among its candidates. The program can give that reply for a persona with trust in [50, 80), no small-start keyword and no model answer.
- Session.SalesSession.CustomerRespond: its reply is one of `CustomerReplies`, so it can give the corrected case-study reply but never the as-written one of app.py:582.
- Session.SalesSession.TakeTurn: the chat reply is one of `CustomerReplies`, so the engaged band's case-study reply is the corrected one (see `Customer.BandReplies`).
- Session.SalesSession.SubmitTurn: as for `TakeTurn`, the engaged band's case-study reply is the corrected one.
- scenario_runner.py and chaos_tester.py are not part of this model.

## Findings

| source | as written | input that shows it | evidently intended | confidence | as-written member | corrected member |
|---|---|---|---|---|---|---|
| app.py:582 | the third engaged-band reply is a plain string literal without the `f` prefix, so it shows the text `{context['industry']}` verbatim | any persona with trust in [50, 80) and no small-start keyword, e.g. industry 製造業: the reply reads "…特に{context['industry']}での実績は？" | the reply names the persona's industry, like the other persona-dependent replies in the same lists (app.py:570, 580) | not executed | Customer.AsWrittenCaseStudyReply and Customer.AsWrittenBandReplies (with CustomerProperties.AsWrittenCaseStudyIgnoresPersona, CustomerProperties.AsWrittenCaseStudyDiffers, CustomerProperties.AsWrittenBandRepliesDiffer) | Customer.CaseStudyReply, used by Customer.BandReplies and so by the session (with CustomerProperties.CaseStudyNamesIndustry) |
