/** The session state of the sales dojo (the fields of st.session_state) and the handlers that
    change it: init_persona, the customer's trust update and reply, the per-turn handler, the
    end-session button and the new-session button. Language-model answers are parameters;
    None (or an empty answer) is the canned path. */
module Session {
  import opened Basics
  import opened Scorer
  import opened Customer
  import opened CustomerProperties
  import opened Report
  import opened ReportProperties

  datatype Role = User | Assistant

  /** One chat message: the salesperson is the user, the customer the assistant. */
  datatype Message = Message(role: Role, content: string)

  /** A log entry as the turn handler writes it: scored by the manager's keyword rubric. */
  predicate ScoredEntry(e: LogEntry)
  {
    e.feedback == ManagerFeedback(e.userInput)
  }

  /** A log of scored entries yields a report whose averages lie within the rubric's bounds:
      the score in [-15, 100], each category in [0, its cap]. */
  lemma ScoredLogReportInRange(log: seq<LogEntry>, trust: int)
    requires log != []
    requires forall k :: 0 <= k < |log| ==> ScoredEntry(log[k])
    ensures var r := FinalReport(log, trust).value;
      && r.totalTurns == |log|
      && -15.0 <= r.avgScore <= 100.0
      && forall c :: 0.0 <= r.avgBreakdown[c] <= Cap(c) as real
  {
    forall k | 0 <= k < |log| ensures InScorerBounds(log[k].feedback) {
      ScorerFeedbackBounds(log[k].userInput);
    }
    ReportAveragesInRange(log, trust);
  }

  /** The chat alternates: the customer's greeting, then per turn the salesperson's message
      and the customer's reply; the k-th log entry (from 0) is turn k + 1 and records the
      k-th message of the salesperson. */
  predicate Alternates(messages: seq<Message>, log: seq<LogEntry>)
  {
    && |messages| == 2 * |log| + 1
    && messages[0].role == Assistant
    && forall k :: 0 <= k < |log| ==>
        && messages[2 * k + 1] == Message(User, log[k].userInput)
        && messages[2 * k + 2].role == Assistant
        && log[k].turn == k + 1
  }

  /** Every entry of the log carries feedback within the rubric's bounds. */
  predicate AllInBounds(log: seq<LogEntry>)
  {
    forall k :: 0 <= k < |log| ==> InScorerBounds(log[k].feedback)
  }

  /** A turn keeps the chat alternating: after the salesperson's message the number of
      messages halved is the next turn number, and the reply closes the turn. */
  lemma {:induction false} AlternatesAppend(messages: seq<Message>, log: seq<LogEntry>, prompt: string, fb: Feedback, reply: string)
    requires Alternates(messages, log)
    ensures var asked := messages + [Message(User, prompt)];
      && |asked| / 2 == |log| + 1
      && Alternates(asked + [Message(Assistant, reply)], log + [LogEntry(|asked| / 2, prompt, fb)])
  {
    var asked := messages + [Message(User, prompt)];
    var msgs := asked + [Message(Assistant, reply)];
    var entries := log + [LogEntry(|asked| / 2, prompt, fb)];
    assert |asked| / 2 == |log| + 1;
    forall k | 0 <= k < |entries|
      ensures msgs[2 * k + 1] == Message(User, entries[k].userInput)
      ensures msgs[2 * k + 2].role == Assistant
      ensures entries[k].turn == k + 1
    {
      if k < |log| {
        assert entries[k] == log[k];
        assert msgs[2 * k + 1] == messages[2 * k + 1];
        assert msgs[2 * k + 2] == messages[2 * k + 2];
      }
    }
  }

  /** Appending an entry within the rubric's bounds keeps every entry within them. */
  lemma AllInBoundsAppend(log: seq<LogEntry>, e: LogEntry)
    requires AllInBounds(log) && InScorerBounds(e.feedback)
    ensures AllInBounds(log + [e])
  {
    forall k | 0 <= k < |log| + 1 ensures InScorerBounds((log + [e])[k].feedback) {
      if k < |log| {
        assert (log + [e])[k] == log[k];
      }
    }
  }

  class SalesSession {
    var messages: seq<Message>
    var reviewLog: seq<LogEntry>
    var simulationActive: bool
    /** The customer persona; None stands for the empty dictionary before the first scenario. */
    var persona: Option<Persona>
    var trustLevel: int
    /** The stored report; None when the "final_report" key is absent. */
    var finalReport: Option<SessionReport>

    ghost predicate Valid()
      reads this
    {
      && TrustInRange(trustLevel)
      && (simulationActive ==> persona.Some?)
      && (persona.None? ==> messages == [] && reviewLog == [])
      && (persona.Some? ==> FromCatalogs(persona.value))
      && (persona.Some? ==> Alternates(messages, reviewLog))
      && AllInBounds(reviewLog)
    }

    /** The state before the first scenario. */
    constructor()
      ensures Valid()
      ensures messages == [] && reviewLog == [] && !simulationActive
      ensures persona.None? && trustLevel == 0 && finalReport.None?
    {
      messages := [];
      reviewLog := [];
      simulationActive := false;
      persona := None;
      trustLevel := 0;
      finalReport := None;
    }

    /** init_persona: draw a persona from the catalogs, clear the chat and the log, reset trust,
        activate the simulation and open with the customer's greeting. A stored report is kept. */
    method InitPersona(llmGreeting: Option<string>)
      modifies this
      ensures Valid()
      ensures persona.Some? && FromCatalogs(persona.value)
      ensures messages == [Message(Assistant, Greeting(persona.value, llmGreeting))]
      ensures reviewLog == [] && simulationActive && trustLevel == 0
      ensures finalReport == old(finalReport)
    {
      CatalogPersonaExists();
      var p :| FromCatalogs(p);
      persona := Some(p);
      messages := [];
      reviewLog := [];
      simulationActive := true;
      trustLevel := 0;
      var greeting := Greeting(p, llmGreeting);
      messages := messages + [Message(Assistant, greeting)];
    }

    /** generate_customer_response: update trust and pick the customer's reply to the persona. */
    method CustomerRespond(input: string, context: Persona, llmReply: Option<string>) returns (reply: string)
      requires TrustInRange(trustLevel)
      modifies this`trustLevel
      ensures trustLevel == NextTrust(old(trustLevel), input, llmReply)
      ensures TrustInRange(trustLevel)
      ensures reply in CustomerReplies(context, old(trustLevel), input, llmReply)
      ensures messages == old(messages) && reviewLog == old(reviewLog) && persona == old(persona)
      ensures simulationActive == old(simulationActive) && finalReport == old(finalReport)
    {
      TrustStaysInRange(trustLevel, input, llmReply);
      if Answered(llmReply) {
        var answer := llmReply.value;
        if Contains(answer, "面白い") || Contains(answer, "興味深い") {
          trustLevel := Min(trustLevel + InterestBonus, TrustCap);
        } else if Contains(answer, "不安") || Contains(answer, "心配") {
          trustLevel := Max(trustLevel - ConcernPenalty, 0);
        }
        return answer;
      }
      var trust := trustLevel;
      var keywordHits := CountContained(input, GoodKeywords);
      trustLevel := Min(trust + keywordHits * TrustPerKeyword, TrustCap);
      var hasCompromise := ContainsAny(input, CompromiseKeywords);
      var hasPrice := ContainsAny(input, OfferPriceKeywords);
      if hasCompromise && hasPrice {
        trustLevel := Min(trustLevel + DealBonus, TrustCap);
        return DealReply(context);
      } else if hasCompromise {
        trustLevel := Min(trustLevel + SmallStartBonus, TrustCap);
        return SmallStartReply(context);
      }
      var responses := BandReplies(context, BandOf(trust));
      assert responses[0] in responses;
      reply :| reply in responses;
    }

    /** The appends of one turn, in the handler's order: the salesperson's message, the log
        entry numbered by half the message count, then the customer's reply. */
    method RecordTurn(prompt: string, feedback: Feedback, response: string)
      requires Valid() && persona.Some? && InScorerBounds(feedback)
      modifies this`messages, this`reviewLog
      ensures Valid()
      ensures reviewLog == old(reviewLog) + [LogEntry(|old(reviewLog)| + 1, prompt, feedback)]
      ensures messages == old(messages) + [Message(User, prompt), Message(Assistant, response)]
      ensures trustLevel == old(trustLevel) && persona == old(persona)
      ensures simulationActive == old(simulationActive) && finalReport == old(finalReport)
    {
      var before, logBefore := messages, reviewLog;
      messages := messages + [Message(User, prompt)];
      var entry := LogEntry(|messages| / 2, prompt, feedback);
      reviewLog := reviewLog + [entry];
      messages := messages + [Message(Assistant, response)];
      AlternatesAppend(before, logBefore, prompt, feedback, response);
      assert messages == before + [Message(User, prompt), Message(Assistant, response)];
      AllInBoundsAppend(logBefore, entry);
    }

    /** One turn of the simulation: log the manager's feedback on the salesperson's message as
        the next turn and answer with the customer's reply. The rubric and the customer read no
        session field but the persona and the trust, so they are evaluated before the appends. */
    method TakeTurn(prompt: string, llmReply: Option<string>)
      requires Valid() && simulationActive
      modifies this
      ensures Valid()
      ensures persona == old(persona) && simulationActive && finalReport == old(finalReport)
      ensures reviewLog == old(reviewLog) + [LogEntry(|old(reviewLog)| + 1, prompt, ManagerFeedback(prompt))]
      ensures exists reply :: (reply in CustomerReplies(persona.value, old(trustLevel), prompt, llmReply) &&
        messages == old(messages) + [Message(User, prompt), Message(Assistant, reply)])
      ensures trustLevel == NextTrust(old(trustLevel), prompt, llmReply)
    {
      var feedback := GenerateManagerFeedback(prompt);
      ScorerFeedbackBounds(prompt);
      var response := CustomerRespond(prompt, persona.value, llmReply);
      RecordTurn(prompt, feedback, response);
    }

    /** The turn handler: a non-empty message during a simulation takes a turn; otherwise
        nothing changes. */
    method SubmitTurn(prompt: string, llmReply: Option<string>)
      requires Valid()
      modifies this
      ensures Valid()
      ensures persona == old(persona) && simulationActive == old(simulationActive)
      ensures finalReport == old(finalReport)
      ensures prompt == "" || !old(simulationActive) ==>
        messages == old(messages) && reviewLog == old(reviewLog) && trustLevel == old(trustLevel)
      ensures prompt != "" && old(simulationActive) ==>
        && reviewLog == old(reviewLog) + [LogEntry(|old(reviewLog)| + 1, prompt, ManagerFeedback(prompt))]
        && (exists reply :: reply in CustomerReplies(persona.value, old(trustLevel), prompt, llmReply) &&
              messages == old(messages) + [Message(User, prompt), Message(Assistant, reply)])
        && trustLevel == NextTrust(old(trustLevel), prompt, llmReply)
    {
      if prompt != "" && simulationActive {
        TakeTurn(prompt, llmReply);
      }
    }

    /** The end-session button: during a simulation with at least one turn, store the report
        and stop the simulation; otherwise nothing changes. */
    method EndSession()
      requires Valid()
      modifies this`simulationActive, this`finalReport
      ensures Valid()
      ensures old(simulationActive) && reviewLog != [] ==>
        && !simulationActive
        && finalReport.Some?
        && finalReport == FinalReport(reviewLog, trustLevel)
      ensures !(old(simulationActive) && reviewLog != []) ==>
        simulationActive == old(simulationActive) && finalReport == old(finalReport)
    {
      if !simulationActive {
        return;
      }
      var report := GenerateFinalReport(reviewLog, trustLevel);
      if report.Some? {
        simulationActive := false;
        finalReport := report;
      }
    }

    /** The new-session button under a stored report: drop the report and start a new scenario. */
    method StartNewSession(llmGreeting: Option<string>)
      requires Valid()
      modifies this
      ensures Valid()
      ensures !old(simulationActive) && old(finalReport).Some? ==>
        && finalReport.None?
        && simulationActive && reviewLog == [] && trustLevel == 0
        && persona.Some? && FromCatalogs(persona.value) && messages == [Message(Assistant, Greeting(persona.value, llmGreeting))]
      ensures !(!old(simulationActive) && old(finalReport).Some?) ==>
        && messages == old(messages) && reviewLog == old(reviewLog) && persona == old(persona)
        && simulationActive == old(simulationActive) && finalReport == old(finalReport)
        && trustLevel == old(trustLevel)
    {
      if simulationActive || finalReport.None? {
        return;
      }
      finalReport := None;
      InitPersona(llmGreeting);
    }
  }
}
