/** cli/main.py, run_analysis: which agent the buffer shows as the current one. */
module CurrentAgents {
  import opened Common
  import opened Reports
  import opened MessageBuffer
  import opened AnalysisStream

  /** The agent whose status a chunk sets last, if it sets any. */
  function Busy(c: Chunk, selected: seq<Analyst>): Option<Agent> {
    if c.messages == [] then None
    else if c.risk.judgeDecision != "" then Some(PortfolioManager)
    else if c.risk.neutral != "" then Some(NeutralAnalyst)
    else if c.risk.safe != "" then Some(SafeAnalyst)
    else if c.risk.risky != "" || c.Has(TraderInvestmentPlan) || c.debate.judgeDecision != "" then Some(RiskyAnalyst)
    else if c.debate.bullHistory != "" || c.debate.bearHistory != "" || c.Has(FundamentalsReport) then Some(Trader)
    else BusyAnalyst(c, selected)
  }

  function BusyAnalyst(c: Chunk, selected: seq<Analyst>): Option<Agent> {
    if c.Has(NewsReport) then Some(if Fundamentals in selected then FundamentalsAnalyst else NewsAnalyst)
    else if c.Has(SentimentReport) then Some(if News in selected then NewsAnalyst else SocialAnalyst)
    else if c.Has(MarketReport) then Some(if Social in selected then SocialAnalyst else MarketAnalyst)
    else None
  }

  /** The agent that a list of effects sets last. */
  function LastAgent(effects: seq<Effect>): Option<Agent>
    decreases |effects|
  {
    if effects == [] then None
    else
      var last := effects[|effects| - 1];
      if last.SetStatus? && Tracked(last.agent) then Some(last.agent) else LastAgent(effects[..|effects| - 1])
  }

  lemma {:induction false} LastAgentAppend(first: seq<Effect>, second: seq<Effect>)
    ensures LastAgent(first + second) == Or(LastAgent(first), LastAgent(second))
    decreases |second|
  {
    if second == [] {
      assert first + second == first;
    } else {
      LastAgentAppend(first, second[..|second| - 1]);
      assert (first + second)[..|first + second| - 1] == first + second[..|second| - 1];
    }
  }

  lemma {:induction false} CurrentAfter(v: Panel, effects: seq<Effect>)
    ensures v.DoAll(effects).current == Or(v.current, LastAgent(effects))
    decreases |effects|
  {
    if effects != [] {
      CurrentAfter(v, effects[..|effects| - 1]);
    }
  }

  lemma {:induction false} NoAgent(effects: seq<Effect>)
    requires forall i :: 0 <= i < |effects| ==> !effects[i].SetStatus?
    ensures LastAgent(effects) == None
    decreases |effects|
  {
    if effects != [] {
      NoAgent(effects[..|effects| - 1]);
    }
  }

  /** Behind `agent` only effects without a status. */
  lemma AgentThen(before: seq<Effect>, agent: Agent, status: Status, after: seq<Effect>)
    requires Tracked(agent) && forall i :: 0 <= i < |after| ==> !after[i].SetStatus?
    ensures LastAgent(before + [SetStatus(agent, status)] + after) == Some(agent)
  {
    NoAgent(after);
    LastAgentAppend(before + [SetStatus(agent, status)], after);
  }

  lemma MessageAgent(m: Message)
    ensures LastAgent(MessageEffects(m)) == None
  {
    CallsHaveNoAgent(m.toolCalls);
    NoAgent(MessageEffects(m));
  }

  lemma {:induction false} CallsHaveNoAgent(calls: seq<ToolCall>)
    ensures forall i :: 0 <= i < |CallEffects(calls)| ==> !CallEffects(calls)[i].SetStatus?
    decreases |calls|
  {
    if calls != [] {
      CallsHaveNoAgent(calls[..|calls| - 1]);
    }
  }

  lemma ReportAgent(c: Chunk, section: Section, agent: Agent, next: Agent, nextSelected: bool)
    requires Tracked(agent) && Tracked(next)
    ensures LastAgent(ReportEffects(c, section, agent, next, nextSelected)) ==
            if !c.Has(section) then None else Some(if nextSelected then next else agent)
  {
    if c.Has(section) {
      var put := Put(section, c.reports[section]);
      AgentThen([put], agent, Completed, []);
      AgentThen([put, SetStatus(agent, Completed)], next, InProgress, []);
      assert [put] + [SetStatus(agent, Completed)] + [] == [put, SetStatus(agent, Completed)] + [];
      assert [put, SetStatus(agent, Completed)] + [SetStatus(next, InProgress)] + []
          == [put, SetStatus(agent, Completed)] + [SetStatus(next, InProgress)];
    }
  }

  lemma AgentInMiddle(before: seq<Effect>, front: seq<Effect>, agent: Agent, status: Status, after: seq<Effect>)
    requires Tracked(agent) && forall i :: 0 <= i < |after| ==> !after[i].SetStatus?
    ensures LastAgent(before + (front + [SetStatus(agent, status)]) + after) == Some(agent)
  {
    assert before + (front + [SetStatus(agent, status)]) == before + front + [SetStatus(agent, status)];
    AgentThen(before + front, agent, status, after);
  }

  lemma TeamAgent(before: seq<Effect>, status: Status, after: seq<Effect>)
    requires forall i :: 0 <= i < |after| ==> !after[i].SetStatus?
    ensures LastAgent(before + Team(status) + after) == Some(Trader)
  {
    AgentInMiddle(before, Team(status)[..3], Trader, status, after);
    assert Team(status) == Team(status)[..3] + [SetStatus(Trader, status)];
  }

  lemma FundamentalsAgent(c: Chunk)
    ensures LastAgent(FundamentalsEffects(c)) == if c.Has(FundamentalsReport) then Some(Trader) else None
  {
    if c.Has(FundamentalsReport) {
      var first := [Put(FundamentalsReport, c.reports[FundamentalsReport]), SetStatus(FundamentalsAnalyst, Completed)];
      TeamAgent(first, InProgress, []);
      assert first + Team(InProgress) + [] == first + Team(InProgress);
    }
  }

  lemma AnalystsAgent(c: Chunk, selected: seq<Analyst>)
    ensures LastAgent(AnalystEffects(c, selected)) ==
            if c.Has(FundamentalsReport) then Some(Trader) else BusyAnalyst(c, selected)
  {
    var market := ReportEffects(c, MarketReport, MarketAnalyst, SocialAnalyst, Social in selected);
    var social := ReportEffects(c, SentimentReport, SocialAnalyst, NewsAnalyst, News in selected);
    var news := ReportEffects(c, NewsReport, NewsAnalyst, FundamentalsAnalyst, Fundamentals in selected);
    ReportAgent(c, MarketReport, MarketAnalyst, SocialAnalyst, Social in selected);
    ReportAgent(c, SentimentReport, SocialAnalyst, NewsAnalyst, News in selected);
    ReportAgent(c, NewsReport, NewsAnalyst, FundamentalsAnalyst, Fundamentals in selected);
    FundamentalsAgent(c);
    LastAgentAppend(market, social);
    LastAgentAppend(market + social, news);
    LastAgentAppend(market + social + news, FundamentalsEffects(c));
  }

  /** A voice of the research debate. */
  lemma TurnAgent(say: Effect, write: Effect)
    requires !say.SetStatus? && !write.SetStatus?
    ensures LastAgent(Team(InProgress) + [say, write]) == Some(Trader) && LastAgent(Team(InProgress) + []) == Some(Trader)
  {
    TeamAgent([], InProgress, [say, write]);
    TeamAgent([], InProgress, []);
    assert [] + Team(InProgress) == Team(InProgress);
  }

  lemma DebateAgent(c: Chunk)
    ensures LastAgent(DebateEffects(c)) ==
            if c.debate.judgeDecision != "" then Some(RiskyAnalyst)
            else if c.debate.bullHistory != "" || c.debate.bearHistory != "" then Some(Trader) else None
  {
    BullAgent(c);
    BearAgent(c);
    ManagerAgent(c);
    LastAgentAppend(BullEffects(c), BearEffects(c));
    LastAgentAppend(BullEffects(c) + BearEffects(c), ManagerEffects(c));
  }

  lemma BullAgent(c: Chunk)
    ensures LastAgent(BullEffects(c)) == if c.debate.bullHistory == "" then None else Some(Trader)
  {
    var latest := LastLine(c.debate.bullHistory);
    TurnAgent(Say("Reasoning", latest), Put(InvestmentPlan, Some(BullBlock(latest))));
  }

  lemma BearAgent(c: Chunk)
    ensures LastAgent(BearEffects(c)) == if c.debate.bearHistory == "" then None else Some(Trader)
  {
    var latest := LastLine(c.debate.bearHistory);
    TurnAgent(Say("Reasoning", latest), Extend(InvestmentPlan, BearBlock(latest)));
  }

  lemma ManagerAgent(c: Chunk)
    ensures LastAgent(ManagerEffects(c)) == if c.debate.judgeDecision == "" then None else Some(RiskyAnalyst)
  {
    var decision := c.debate.judgeDecision;
    if decision != "" {
      var front := Team(InProgress)
        + [Say("Reasoning", "Research Manager: " + decision), Extend(InvestmentPlan, ManagerBlock(decision))]
        + Team(Completed);
      AgentThen(front, RiskyAnalyst, InProgress, []);
      assert front + [SetStatus(RiskyAnalyst, InProgress)] + [] == ManagerEffects(c);
    }
  }

  lemma TraderAgent(c: Chunk)
    ensures LastAgent(TraderEffects(c)) == if c.Has(TraderInvestmentPlan) then Some(RiskyAnalyst) else None
  {
    if c.Has(TraderInvestmentPlan) {
      AgentThen([Put(TraderInvestmentPlan, c.reports[TraderInvestmentPlan])], RiskyAnalyst, InProgress, []);
      assert [Put(TraderInvestmentPlan, c.reports[TraderInvestmentPlan])] + [SetStatus(RiskyAnalyst, InProgress)] + []
          == TraderEffects(c);
    }
  }

  lemma VoiceAgent(agent: Agent, response: string, kind: string)
    requires Tracked(agent)
    ensures LastAgent(RiskEffects(agent, response, kind)) == if response == "" then None else Some(agent)
  {
    if response != "" {
      var rest := [Say("Reasoning", RiskName(agent) + ": " + response),
                   Put(FinalTradeDecision, Some("### " + RiskName(agent) + kind + response))];
      AgentThen([], agent, InProgress, rest);
      assert [] + [SetStatus(agent, InProgress)] + rest == RiskEffects(agent, response, kind);
    }
  }

  lemma RiskDoneAgent(c: Chunk)
    ensures LastAgent(RiskDone(c)) == if c.risk.judgeDecision == "" then None else Some(PortfolioManager)
  {
  }

  lemma RiskAgent(c: Chunk)
    ensures LastAgent(RiskDebateEffects(c)) ==
            if c.risk.judgeDecision != "" then Some(PortfolioManager)
            else if c.risk.neutral != "" then Some(NeutralAnalyst)
            else if c.risk.safe != "" then Some(SafeAnalyst)
            else if c.risk.risky != "" then Some(RiskyAnalyst) else None
  {
    var risky := RiskEffects(RiskyAnalyst, c.risk.risky, " Analysis\n");
    var safe := RiskEffects(SafeAnalyst, c.risk.safe, " Analysis\n");
    var neutral := RiskEffects(NeutralAnalyst, c.risk.neutral, " Analysis\n");
    var judge := RiskEffects(PortfolioManager, c.risk.judgeDecision, " Decision\n");
    VoiceAgent(RiskyAnalyst, c.risk.risky, " Analysis\n");
    VoiceAgent(SafeAnalyst, c.risk.safe, " Analysis\n");
    VoiceAgent(NeutralAnalyst, c.risk.neutral, " Analysis\n");
    VoiceAgent(PortfolioManager, c.risk.judgeDecision, " Decision\n");
    RiskDoneAgent(c);
    JoinAgents(risky, safe, neutral, judge, RiskDone(c));
  }

  lemma JoinAgents(a: seq<Effect>, b: seq<Effect>, c: seq<Effect>, d: seq<Effect>, e: seq<Effect>)
    ensures LastAgent(a + b + c + d + e) ==
            Or(Or(Or(Or(LastAgent(a), LastAgent(b)), LastAgent(c)), LastAgent(d)), LastAgent(e))
  {
    LastAgentAppend(a, b);
    LastAgentAppend(a + b, c);
    LastAgentAppend(a + b + c, d);
    LastAgentAppend(a + b + c + d, e);
  }

  lemma ChunkAgent(c: Chunk, selected: seq<Analyst>)
    ensures LastAgent(Effects(c, selected)) == Busy(c, selected)
  {
    if c.messages != [] {
      MessageAgent(c.messages[|c.messages| - 1]);
      AnalystsAgent(c, selected);
      DebateAgent(c);
      TraderAgent(c);
      RiskAgent(c);
      JoinAgents(MessageEffects(c.messages[|c.messages| - 1]), AnalystEffects(c, selected), DebateEffects(c),
                 TraderEffects(c), RiskDebateEffects(c));
    }
  }

  // ---- over a whole stream ----

  function BusyAgents(chunks: seq<Chunk>, selected: seq<Analyst>): (agents: seq<Option<Agent>>)
    ensures |agents| == |chunks|
  {
    seq(|chunks|, i requires 0 <= i < |chunks| => Busy(chunks[i], selected))
  }

  lemma {:induction false} CurrentAfterFold(v: Panel, batches: seq<seq<Effect>>, agents: seq<Option<Agent>>, n: nat)
    requires n <= |batches| == |agents|
    requires forall i :: 0 <= i < n ==> LastAgent(batches[i]) == agents[i]
    ensures Fold(v, batches, n).current == Or(v.current, Latest(agents, n))
  {
    if n > 0 {
      CurrentAfterFold(v, batches, agents, n - 1);
      CurrentAfter(Fold(v, batches, n - 1), batches[n - 1]);
    }
  }

  /** At every chunk boundary the current agent is the one of the latest chunk that names one. */
  lemma CurrentAtBoundary(v: Panel, chunks: seq<Chunk>, selected: seq<Analyst>, n: nat)
    requires n <= |chunks|
    ensures Through(v, chunks, selected, n).current == Or(v.current, Latest(BusyAgents(chunks, selected), n))
  {
    var batches, agents := Batches(chunks, selected), BusyAgents(chunks, selected);
    forall i | 0 <= i < n ensures LastAgent(batches[i]) == agents[i] {
      ChunkAgent(chunks[i], selected);
    }
    CurrentAfterFold(v, batches, agents, n);
  }
}
