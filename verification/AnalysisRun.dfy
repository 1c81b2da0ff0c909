/** cli/main.py, run_analysis: the loop over the stream, with the message buffer updated call by call. */
module AnalysisRun {
  import opened Common
  import opened Reports
  import opened MB = MessageBuffer
  import opened AnalysisStream
  import ChunkMessages
  import CurrentAgents

  /** update_research_team_status */
  method UpdateResearchTeamStatus(buffer: MB.MessageBuffer, status: Status)
    requires buffer.Valid()
    modifies buffer
    ensures buffer.Valid() && buffer.View() == old(buffer.View()).DoAll(Team(status))
  {
    ghost var v := buffer.View();
    v.DoAllFour(SetStatus(BullResearcher, status), SetStatus(BearResearcher, status),
                SetStatus(ResearchManager, status), SetStatus(Trader, status));
    buffer.UpdateAgentStatus(BullResearcher, status);
    buffer.UpdateAgentStatus(BearResearcher, status);
    buffer.UpdateAgentStatus(ResearchManager, status);
    buffer.UpdateAgentStatus(Trader, status);
  }

  /** Lines 1269 to 1292. */
  method TakeMessage(buffer: MB.MessageBuffer, message: Message)
    requires buffer.Valid()
    modifies buffer
    ensures buffer.Valid() && buffer.View() == old(buffer.View()).DoAll(MessageEffects(message))
  {
    ghost var v := buffer.View();
    var kind := if message.hasContent then "Reasoning" else "System";
    v.DoAllAppend([Say(kind, message.content)], CallEffects(message.toolCalls));
    v.DoAllOne(Say(kind, message.content));
    buffer.AddMessage(kind, message.content);
    TakeCalls(buffer, message.toolCalls);
  }

  method TakeCalls(buffer: MB.MessageBuffer, calls: seq<ToolCall>)
    requires buffer.Valid()
    modifies buffer
    ensures buffer.Valid() && buffer.View() == old(buffer.View()).DoAll(CallEffects(calls))
  {
    ghost var v := buffer.View();
    for i := 0 to |calls|
      invariant buffer.Valid() && buffer.View() == v.DoAll(CallEffects(calls[..i]))
    {
      CallNext(v, calls[..i], calls[i]);
      assert calls[..i + 1] == calls[..i] + [calls[i]];
      buffer.AddToolCall(calls[i].name, calls[i].args);
    }
    assert calls[..|calls|] == calls;
  }

  lemma CallNext(v: Panel, calls: seq<ToolCall>, call: ToolCall)
    ensures v.DoAll(CallEffects(calls + [call])) == v.DoAll(CallEffects(calls)).Do(Call(call.name, call.args))
  {
    assert (calls + [call])[..|calls|] == calls;
    var effects := CallEffects(calls + [call]);
    assert effects[..|effects| - 1] == CallEffects(calls);
  }

  /** The block of one analyst, lines 1296 to 1357. */
  method TakeReport(buffer: MB.MessageBuffer, c: Chunk, section: Section, agent: Agent, next: Agent, nextSelected: bool)
    requires buffer.Valid()
    modifies buffer
    ensures buffer.Valid()
    ensures buffer.View() == old(buffer.View()).DoAll(ReportEffects(c, section, agent, next, nextSelected))
  {
    if c.Has(section) {
      ghost var v := buffer.View();
      ghost var put, done := Put(section, c.reports[section]), SetStatus(agent, Completed);
      v.DoAllTwo(put, done);
      v.DoAllThree(put, done, SetStatus(next, InProgress));
      assert [put, done] + [SetStatus(next, InProgress)] == [put, done, SetStatus(next, InProgress)];
      assert [put, done] + [] == [put, done];
      buffer.UpdateReportSection(section, c.reports[section]);
      buffer.UpdateAgentStatus(agent, Completed);
      if nextSelected {
        buffer.UpdateAgentStatus(next, InProgress);
      }
    }
  }

  method TakeFundamentals(buffer: MB.MessageBuffer, c: Chunk)
    requires buffer.Valid()
    modifies buffer
    ensures buffer.Valid() && buffer.View() == old(buffer.View()).DoAll(FundamentalsEffects(c))
  {
    if c.Has(FundamentalsReport) {
      ghost var v := buffer.View();
      ghost var put, done := Put(FundamentalsReport, c.reports[FundamentalsReport]), SetStatus(FundamentalsAnalyst, Completed);
      v.DoAllTwo(put, done);
      v.DoAllAppend([put, done], Team(InProgress));
      buffer.UpdateReportSection(FundamentalsReport, c.reports[FundamentalsReport]);
      buffer.UpdateAgentStatus(FundamentalsAnalyst, Completed);
      UpdateResearchTeamStatus(buffer, InProgress);
    }
  }

  method TakeAnalysts(buffer: MB.MessageBuffer, c: Chunk, selected: seq<Analyst>)
    requires buffer.Valid()
    modifies buffer
    ensures buffer.Valid() && buffer.View() == old(buffer.View()).DoAll(AnalystEffects(c, selected))
  {
    ghost var market := ReportEffects(c, MarketReport, MarketAnalyst, SocialAnalyst, Social in selected);
    ghost var social := ReportEffects(c, SentimentReport, SocialAnalyst, NewsAnalyst, News in selected);
    ghost var news := ReportEffects(c, NewsReport, NewsAnalyst, FundamentalsAnalyst, Fundamentals in selected);
    buffer.View().DoAllAppend(market, social);
    buffer.View().DoAllAppend(market + social, news);
    buffer.View().DoAllAppend(market + social + news, FundamentalsEffects(c));
    TakeReport(buffer, c, MarketReport, MarketAnalyst, SocialAnalyst, Social in selected);
    TakeReport(buffer, c, SentimentReport, SocialAnalyst, NewsAnalyst, News in selected);
    TakeReport(buffer, c, NewsReport, NewsAnalyst, FundamentalsAnalyst, Fundamentals in selected);
    TakeFundamentals(buffer, c);
  }

  /** Lines 1386 to 1404. */
  method TakeBull(buffer: MB.MessageBuffer, c: Chunk)
    requires buffer.Valid()
    modifies buffer
    ensures buffer.Valid() && buffer.View() == old(buffer.View()).DoAll(BullEffects(c))
  {
    if c.debate.bullHistory != "" {
      var latestBull := LastLine(c.debate.bullHistory);
      ghost var say, write := Say("Reasoning", latestBull), Put(InvestmentPlan, Some(BullBlock(latestBull)));
      Voice(buffer.View(), say, write);
      UpdateResearchTeamStatus(buffer, InProgress);
      if latestBull != "" {
        buffer.AddMessage("Reasoning", latestBull);
        buffer.UpdateReportSection(InvestmentPlan, Some(BullBlock(latestBull)));
      }
    }
  }

  lemma Voice(v: Panel, say: Effect, write: Effect)
    ensures v.DoAll(Team(InProgress) + [say, write]) == v.DoAll(Team(InProgress)).Do(say).Do(write)
    ensures Team(InProgress) + [] == Team(InProgress)
  {
    v.DoAllAppend(Team(InProgress), [say, write]);
    v.DoAll(Team(InProgress)).DoAllTwo(say, write);
  }

  /** The new plan text is formatted from the section as it stands. */
  method ExtendPlan(buffer: MB.MessageBuffer, addition: string)
    requires buffer.Valid()
    modifies buffer
    ensures buffer.Valid() && buffer.View() == old(buffer.View()).Do(Extend(InvestmentPlan, addition))
  {
    buffer.UpdateReportSection(
      InvestmentPlan, Some(Formatted(buffer.reportSections[InvestmentPlan]) + "\n\n" + addition));
  }

  /** Lines 1407 to 1419. */
  method TakeBear(buffer: MB.MessageBuffer, c: Chunk)
    requires buffer.Valid()
    modifies buffer
    ensures buffer.Valid() && buffer.View() == old(buffer.View()).DoAll(BearEffects(c))
  {
    if c.debate.bearHistory != "" {
      var latestBear := LastLine(c.debate.bearHistory);
      Voice(buffer.View(), Say("Reasoning", latestBear), Extend(InvestmentPlan, BearBlock(latestBear)));
      UpdateResearchTeamStatus(buffer, InProgress);
      if latestBear != "" {
        buffer.AddMessage("Reasoning", latestBear);
        ExtendPlan(buffer, BearBlock(latestBear));
      }
    }
  }

  /** Lines 1422 to 1447. */
  method TakeManager(buffer: MB.MessageBuffer, c: Chunk)
    requires buffer.Valid()
    modifies buffer
    ensures buffer.Valid() && buffer.View() == old(buffer.View()).DoAll(ManagerEffects(c))
  {
    var decision := c.debate.judgeDecision;
    if decision != "" {
      ghost var say, write := Say("Reasoning", "Research Manager: " + decision), Extend(InvestmentPlan, ManagerBlock(decision));
      ManagerParts(buffer.View(), say, write);
      UpdateResearchTeamStatus(buffer, InProgress);
      buffer.AddMessage("Reasoning", "Research Manager: " + decision);
      ExtendPlan(buffer, ManagerBlock(decision));
      UpdateResearchTeamStatus(buffer, Completed);
      buffer.UpdateAgentStatus(RiskyAnalyst, InProgress);
    }
  }

  lemma ManagerParts(v: Panel, say: Effect, write: Effect)
    ensures v.DoAll(Team(InProgress) + [say, write] + Team(Completed) + [SetStatus(RiskyAnalyst, InProgress)])
            == v.DoAll(Team(InProgress)).Do(say).Do(write).DoAll(Team(Completed)).Do(SetStatus(RiskyAnalyst, InProgress))
  {
    Voice(v, say, write);
    var spoken, risky := Team(InProgress) + [say, write], SetStatus(RiskyAnalyst, InProgress);
    v.DoAllAppend(spoken, Team(Completed));
    assert (spoken + Team(Completed) + [risky])[..|spoken + Team(Completed)|] == spoken + Team(Completed);
  }

  method TakeDebate(buffer: MB.MessageBuffer, c: Chunk)
    requires buffer.Valid()
    modifies buffer
    ensures buffer.Valid() && buffer.View() == old(buffer.View()).DoAll(DebateEffects(c))
  {
    buffer.View().DoAllAppend(BullEffects(c), BearEffects(c));
    buffer.View().DoAllAppend(BullEffects(c) + BearEffects(c), ManagerEffects(c));
    TakeBull(buffer, c);
    TakeBear(buffer, c);
    TakeManager(buffer, c);
  }

  /** Lines 1450 to 1468. */
  method TakeTrader(buffer: MB.MessageBuffer, c: Chunk)
    requires buffer.Valid()
    modifies buffer
    ensures buffer.Valid() && buffer.View() == old(buffer.View()).DoAll(TraderEffects(c))
  {
    if c.Has(TraderInvestmentPlan) {
      buffer.View().DoAllTwo(
        Put(TraderInvestmentPlan, c.reports[TraderInvestmentPlan]), SetStatus(RiskyAnalyst, InProgress));
      buffer.UpdateReportSection(TraderInvestmentPlan, c.reports[TraderInvestmentPlan]);
      buffer.UpdateAgentStatus(RiskyAnalyst, InProgress);
    }
  }

  /** The block of one voice of the risk debate, lines 1475 to 1551. */
  method TakeVoice(buffer: MB.MessageBuffer, agent: Agent, response: string, kind: string)
    requires buffer.Valid()
    modifies buffer
    ensures buffer.Valid() && buffer.View() == old(buffer.View()).DoAll(RiskEffects(agent, response, kind))
  {
    if response != "" {
      var said, report := RiskName(agent) + ": " + response, "### " + RiskName(agent) + kind + response;
      buffer.View().DoAllThree(
        SetStatus(agent, InProgress), Say("Reasoning", said), Put(FinalTradeDecision, Some(report)));
      buffer.UpdateAgentStatus(agent, InProgress);
      buffer.AddMessage("Reasoning", said);
      buffer.UpdateReportSection(FinalTradeDecision, Some(report));
    }
  }

  method CompleteRiskTeam(buffer: MB.MessageBuffer, c: Chunk)
    requires buffer.Valid()
    modifies buffer
    ensures buffer.Valid() && buffer.View() == old(buffer.View()).DoAll(RiskDone(c))
  {
    if c.risk.judgeDecision != "" {
      buffer.View().DoAllFour(SetStatus(RiskyAnalyst, Completed), SetStatus(SafeAnalyst, Completed),
                              SetStatus(NeutralAnalyst, Completed), SetStatus(PortfolioManager, Completed));
      buffer.UpdateAgentStatus(RiskyAnalyst, Completed);
      buffer.UpdateAgentStatus(SafeAnalyst, Completed);
      buffer.UpdateAgentStatus(NeutralAnalyst, Completed);
      buffer.UpdateAgentStatus(PortfolioManager, Completed);
    }
  }

  method TakeRiskDebate(buffer: MB.MessageBuffer, c: Chunk)
    requires buffer.Valid()
    modifies buffer
    ensures buffer.Valid() && buffer.View() == old(buffer.View()).DoAll(RiskDebateEffects(c))
  {
    ghost var risky := RiskEffects(RiskyAnalyst, c.risk.risky, " Analysis\n");
    ghost var safe := RiskEffects(SafeAnalyst, c.risk.safe, " Analysis\n");
    ghost var neutral := RiskEffects(NeutralAnalyst, c.risk.neutral, " Analysis\n");
    ghost var judge := RiskEffects(PortfolioManager, c.risk.judgeDecision, " Decision\n");
    buffer.View().DoAllAppend(risky, safe);
    buffer.View().DoAllAppend(risky + safe, neutral);
    buffer.View().DoAllAppend(risky + safe + neutral, judge);
    buffer.View().DoAllAppend(risky + safe + neutral + judge, RiskDone(c));
    TakeVoice(buffer, RiskyAnalyst, c.risk.risky, " Analysis\n");
    TakeVoice(buffer, SafeAnalyst, c.risk.safe, " Analysis\n");
    TakeVoice(buffer, NeutralAnalyst, c.risk.neutral, " Analysis\n");
    TakeVoice(buffer, PortfolioManager, c.risk.judgeDecision, " Decision\n");
    CompleteRiskTeam(buffer, c);
  }

  /** The body of the loop, lines 1268 to 1560. */
  method ProcessChunk(buffer: MB.MessageBuffer, c: Chunk, selected: seq<Analyst>)
    requires buffer.Valid()
    modifies buffer
    ensures buffer.Valid() && buffer.View() == old(buffer.View()).DoAll(Effects(c, selected))
    ensures buffer.allMessages == old(buffer.allMessages) + ChunkMessages.LinesOf(c)
    ensures buffer.allToolCalls == old(buffer.allToolCalls) + ChunkMessages.CallsOf(c)
    ensures buffer.currentAgent == Or(old(buffer.currentAgent), CurrentAgents.Busy(c, selected))
  {
    ChunkLeaves(buffer.View(), c, selected);
    if |c.messages| > 0 {
      var message := c.messages[|c.messages| - 1];
      Joined(buffer.View(), MessageEffects(message), AnalystEffects(c, selected), DebateEffects(c), TraderEffects(c),
             RiskDebateEffects(c));
      TakeMessage(buffer, message);
      TakeAnalysts(buffer, c, selected);
      TakeDebate(buffer, c);
      TakeTrader(buffer, c);
      TakeRiskDebate(buffer, c);
    }
  }

  /** What is known of the buffer behind a chunk, from the chunk's own fields. */
  lemma ChunkLeaves(v: Panel, c: Chunk, selected: seq<Analyst>)
    ensures var w := v.DoAll(Effects(c, selected));
            && w.lines == v.lines + ChunkMessages.LinesOf(c) && w.calls == v.calls + ChunkMessages.CallsOf(c)
            && w.current == Or(v.current, CurrentAgents.Busy(c, selected))
  {
    ChunkMessages.Added(v, Effects(c, selected));
    ChunkMessages.ChunkAdds(c, selected);
    CurrentAgents.CurrentAfter(v, Effects(c, selected));
    CurrentAgents.ChunkAgent(c, selected);
  }

  lemma Joined(v: Panel, said: seq<Effect>, analysts: seq<Effect>, debate: seq<Effect>, trader: seq<Effect>,
               risk: seq<Effect>)
    ensures v.DoAll(said + analysts + debate + trader + risk) ==
            v.DoAll(said).DoAll(analysts).DoAll(debate).DoAll(trader).DoAll(risk)
  {
    v.DoAllAppend(said, analysts);
    v.DoAllAppend(said + analysts, debate);
    v.DoAllAppend(said + analysts + debate, trader);
    v.DoAllAppend(said + analysts + debate + trader, risk);
  }

  // ---- the whole run ----

  function AgentOf(analyst: Analyst): Agent {
    match analyst
    case Market => MarketAnalyst
    case Social => SocialAnalyst
    case News => NewsAnalyst
    case Fundamentals => FundamentalsAnalyst
  }

  /** Give every agent the same status, one after the other. */
  method SetAll(buffer: MB.MessageBuffer, status: Status)
    requires buffer.Valid()
    modifies buffer`agentStatus, buffer`currentAgent
    ensures buffer.Valid() && buffer.agentStatus == AllAre(status)
    ensures buffer.currentAgent == Some(PortfolioManager)
  {
    for i := 0 to |AGENTS|
      invariant buffer.Valid() && AllSet(buffer.agentStatus, status, i)
      invariant i > 0 ==> buffer.currentAgent == Some(AGENTS[i - 1])
    {
      SetNext(buffer, i, status);
    }
    AllTracked(buffer.agentStatus, status);
  }

  /** The first `n` agents have the status. */
  predicate AllSet(statuses: Statuses, status: Status, n: nat)
    requires n <= |AGENTS|
  {
    forall j :: 0 <= j < n ==> AGENTS[j] in statuses && statuses[AGENTS[j]] == status
  }

  method SetNext(buffer: MB.MessageBuffer, i: nat, status: Status)
    requires buffer.Valid() && i < |AGENTS| && AllSet(buffer.agentStatus, status, i)
    modifies buffer`agentStatus, buffer`currentAgent
    ensures buffer.Valid() && AllSet(buffer.agentStatus, status, i + 1)
    ensures buffer.currentAgent == Some(AGENTS[i])
  {
    AgentsTracked(AGENTS[i]);
    buffer.UpdateAgentStatus(AGENTS[i], status);
  }

  lemma AllTracked(statuses: Statuses, status: Status)
    requires TracksAgents(statuses) && AllSet(statuses, status, |AGENTS|)
    ensures statuses == AllAre(status)
  {
    forall a | Tracked(a) ensures statuses[a] == status {
      AgentsTracked(a);
      var j :| 0 <= j < |AGENTS| && AGENTS[j] == a;
    }
  }

  /** Lines 1159 to 1171. */
  method Reset(buffer: MB.MessageBuffer, first: Agent)
    requires buffer.Valid() && Tracked(first)
    modifies buffer
    ensures buffer.Valid()
    ensures buffer.View() == AtStart(first, old(buffer.allMessages), old(buffer.allToolCalls))
  {
    SetAll(buffer, Pending);
    ClearSections(buffer);
    NoReportIffNothing(NoSections());
    buffer.currentReport := None;
    buffer.finalReport := None;
    buffer.UpdateAgentStatus(first, InProgress);
  }

  method ClearSections(buffer: MB.MessageBuffer)
    requires Complete(buffer.reportSections)
    modifies buffer`reportSections
    ensures buffer.reportSections == NoSections()
  {
    for i := 0 to |ORDER|
      invariant Complete(buffer.reportSections)
      invariant forall j :: 0 <= j < i ==> ORDER[j] in buffer.reportSections && buffer.reportSections[ORDER[j]] == None
    {
      SectionsDeclared(ORDER[i]);
      buffer.reportSections := buffer.reportSections[ORDER[i] := None];
    }
    forall s | Declared(s) ensures buffer.reportSections[s] == None {
      SectionsDeclared(s);
      assert exists j :: 0 <= j < |ORDER| && ORDER[j] == s;
    }
  }

  /** The buffer when the stream starts: nothing of an earlier run but its messages. */
  function AtStart(first: Agent, lines: seq<Line>, calls: seq<ToolCall>): Panel {
    Panel(AllAre(Pending)[first := InProgress], Some(first), NoSections(), None, lines, calls)
  }

  /** The sections with those that are keys of the final state written over. */
  function Overwritten(sections: Sections, reports: Sections): Sections {
    map s | s in sections :: if s in reports then reports[s] else sections[s]
  }

  /** Lines 1578 to 1588. */
  method Finish(buffer: MB.MessageBuffer, finalState: Chunk, analysisDate: string)
    requires buffer.Valid()
    modifies buffer
    ensures buffer.Valid() && buffer.agentStatus == AllAre(Completed)
    ensures buffer.reportSections == Overwritten(old(buffer.reportSections), finalState.reports)
    ensures buffer.allMessages == old(buffer.allMessages) + [Line("Analysis", "Completed analysis for " + analysisDate)]
    ensures buffer.allToolCalls == old(buffer.allToolCalls) && buffer.currentAgent == Some(PortfolioManager)
  {
    SetAll(buffer, Completed);
    buffer.AddMessage("Analysis", "Completed analysis for " + analysisDate);
    WriteFinalSections(buffer, finalState.reports);
  }

  /** Lines 1586 to 1588. */
  method WriteFinalSections(buffer: MB.MessageBuffer, reports: Sections)
    requires buffer.Valid()
    modifies buffer`reportSections, buffer`currentReport, buffer`finalReport
    ensures buffer.Valid() && buffer.reportSections == Overwritten(old(buffer.reportSections), reports)
  {
    ghost var before := buffer.reportSections;
    for i := 0 to |ORDER|
      invariant buffer.Valid()
      invariant forall j :: 0 <= j < |ORDER| ==>
                  && ORDER[j] in buffer.reportSections && ORDER[j] in before
                  && buffer.reportSections[ORDER[j]] ==
                     if j < i && ORDER[j] in reports then reports[ORDER[j]] else before[ORDER[j]]
    {
      Others(i);
      SectionsDeclared(ORDER[i]);
      if ORDER[i] in reports {
        buffer.UpdateReportSection(ORDER[i], reports[ORDER[i]]);
      }
    }
    AllOverwritten(before, reports, buffer.reportSections);
  }

  lemma AllOverwritten(before: Sections, reports: Sections, after: Sections)
    requires Complete(before) && Complete(after)
    requires forall j :: 0 <= j < |ORDER| ==>
               && ORDER[j] in after && ORDER[j] in before
               && after[ORDER[j]] == if ORDER[j] in reports then reports[ORDER[j]] else before[ORDER[j]]
    ensures after == Overwritten(before, reports)
  {
    forall s | s in after ensures after[s] == if s in reports then reports[s] else before[s] {
      SectionsDeclared(s);
      var j :| 0 <= j < |ORDER| && ORDER[j] == s;
    }
  }

  /** `batches` lists what each chunk does. */
  ghost predicate Match(batches: seq<seq<Effect>>, chunks: seq<Chunk>, selected: seq<Analyst>) {
    && |batches| == |chunks|
    && forall i {:trigger Effects(chunks[i], selected)} :: 0 <= i < |chunks| ==> batches[i] == Effects(chunks[i], selected)
  }

  lemma MatchIsBatches(batches: seq<seq<Effect>>, chunks: seq<Chunk>, selected: seq<Analyst>)
    ensures Match(batches, chunks, selected) <==> batches == Batches(chunks, selected)
  {
    if Match(batches, chunks, selected) {
      forall i | 0 <= i < |chunks| ensures batches[i] == Batches(chunks, selected)[i] {
        assert batches[i] == Effects(chunks[i], selected);
      }
    }
  }

  /** One round of the loop of lines 1267 to 1565. */
  method ProcessNext(buffer: MB.MessageBuffer, chunks: seq<Chunk>, n: nat, selected: seq<Analyst>,
                     ghost batches: seq<seq<Effect>>)
    requires buffer.Valid() && n < |chunks| && Match(batches, chunks, selected)
    modifies buffer
    ensures buffer.Valid() && buffer.View() == old(buffer.View()).DoAll(batches[n])
  {
    ProcessChunk(buffer, chunks[n], selected);
  }

  /** The loop; the trace keeps every chunk. */
  method Stream(buffer: MB.MessageBuffer, chunks: seq<Chunk>, selected: seq<Analyst>, ghost batches: seq<seq<Effect>>)
    returns (trace: seq<Chunk>)
    requires buffer.Valid() && Match(batches, chunks, selected)
    modifies buffer
    ensures buffer.Valid() && trace == chunks
    ensures buffer.View() == Fold(old(buffer.View()), batches, |chunks|)
  {
    ghost var start := buffer.View();
    trace := [];
    for n := 0 to |chunks|
      invariant buffer.Valid() && buffer.View() == Fold(start, batches, n) && trace == chunks[..n]
    {
      ProcessNext(buffer, chunks, n, selected, batches);
      trace := trace + [chunks[n]];
    }
    assert chunks[..|chunks|] == chunks;
  }

  /** Everything behind the reset; `batches` can only be the list of what each chunk does. */
  method StreamAndFinish(buffer: MB.MessageBuffer, chunks: seq<Chunk>, selected: seq<Analyst>, analysisDate: string,
                         signalFails: bool, ghost batches: seq<seq<Effect>>)
    returns (ok: bool)
    requires buffer.Valid() && Match(batches, chunks, selected)
    modifies buffer
    ensures buffer.Valid()
    ensures ok <==> chunks != [] && FinalTradeDecision in chunks[|chunks| - 1].reports && !signalFails
    ensures Ended(buffer, ok, Fold(old(buffer.View()), batches, |chunks|), chunks, analysisDate)
  {
    var trace := Stream(buffer, chunks, selected, batches);
    ok := trace != [] && FinalTradeDecision in trace[|trace| - 1].reports && !signalFails;
    if ok {
      Finish(buffer, trace[|trace| - 1], analysisDate);
    }
  }

  /** The buffer behind a stream that left it as `end`. */
  ghost predicate Ended(buffer: MB.MessageBuffer, ok: bool, end: Panel, chunks: seq<Chunk>, analysisDate: string)
    requires ok ==> chunks != []
    reads buffer
  {
    if ok then
      && buffer.agentStatus == AllAre(Completed)
      && buffer.reportSections == Overwritten(end.sections, chunks[|chunks| - 1].reports)
      && buffer.allMessages == end.lines + [Line("Analysis", "Completed analysis for " + analysisDate)]
      && buffer.allToolCalls == end.calls && buffer.currentAgent == Some(PortfolioManager)
    else buffer.View() == end
  }

  /** The run from the reset to the end. It stops early when the data preparation fails (`prepared`), and
      fails when the last chunk, if there is one at all, has no final decision, or processing it fails. */
  method RunStream(buffer: MB.MessageBuffer, chunks: seq<Chunk>, selected: seq<Analyst>, analysisDate: string,
                   prepared: bool, signalFails: bool)
    returns (ok: bool)
    requires buffer.Valid() && selected != []
    modifies buffer
    ensures buffer.Valid()
    ensures ok <==> prepared && chunks != [] && FinalTradeDecision in chunks[|chunks| - 1].reports && !signalFails
    ensures var start := AtStart(AgentOf(selected[0]), old(buffer.allMessages), old(buffer.allToolCalls));
            if !prepared then buffer.View() == start
            else Ended(buffer, ok, Through(start, chunks, selected, |chunks|), chunks, analysisDate)
    ensures prepared ==>
              && buffer.allMessages == old(buffer.allMessages) + ChunkMessages.Flat(ChunkMessages.AllLines(chunks), |chunks|)
                                       + (if ok then [Line("Analysis", "Completed analysis for " + analysisDate)] else [])
              && buffer.allToolCalls == old(buffer.allToolCalls) + ChunkMessages.Flat(ChunkMessages.AllCalls(chunks), |chunks|)
  {
    Reset(buffer, AgentOf(selected[0]));
    if !prepared {
      return false;
    }
    MatchIsBatches(Batches(chunks, selected), chunks, selected);
    ChunkMessages.MessagesAtBoundary(buffer.View(), chunks, selected, |chunks|);
    ok := StreamAndFinish(buffer, chunks, selected, analysisDate, signalFails, Batches(chunks, selected));
  }
}
