/** cli/main.py, run_analysis: the chunks of the graph's stream are folded into the message buffer. */
module AnalysisStream {
  import Text
  import opened Common
  import opened Reports
  import opened MessageBuffer

  datatype Analyst = Market | Social | News | Fundamentals

  datatype Message = Message(hasContent: bool, content: string, toolCalls: seq<ToolCall>)

  /** An absent or empty text is "" in the two debates. */
  datatype Debate = Debate(bullHistory: string, bearHistory: string, judgeDecision: string)
  datatype Risk = Risk(risky: string, safe: string, neutral: string, judgeDecision: string)

  /** `reports`: the report sections that are keys of the chunk. */
  datatype Chunk = Chunk(messages: seq<Message>, reports: Sections, debate: Debate, risk: Risk)
  {
    predicate Has(s: Section) {
      Truthy(reports, s)
    }
  }

  /** The last line of a text. */
  function LastLine(s: string): string {
    var lines := Text.Split(s);
    lines[|lines| - 1]
  }

  /** It is empty exactly when the text is empty or ends its last line. */
  lemma {:induction false} LastLineEmptyIff(s: string)
    ensures LastLine(s) == "" <==> s == "" || s[|s| - 1] == '\n'
  {
    if s != "" {
      LastLineEmptyIff(s[1..]);
    }
  }

  /** `l` is the part of `s` behind its last newline. */
  predicate BehindLastNewline(s: string, l: string) {
    && '\n' !in l && |l| <= |s| && s[|s| - |l|..] == l
    && (|l| < |s| ==> s[|s| - |l| - 1] == '\n')
  }

  predicate EndsWithLast(s: string, lines: seq<string>) {
    && lines != [] && BehindLastNewline(s, lines[|lines| - 1])
    && (|lines| > 1 <==> |lines[|lines| - 1]| < |s|)
  }

  lemma CharInFront(c: char, s: string, l: string)
    requires BehindLastNewline(s, l)
    ensures |l| < |s| || c == '\n' ==> BehindLastNewline([c] + s, l)
    ensures |l| == |s| && c != '\n' ==> BehindLastNewline([c] + s, [c] + s)
  {
    assert ([c] + s)[1 + |s| - |l|..] == s[|s| - |l|..];
  }

  lemma LastOfNext(c: char, s: string, lines: seq<string>)
    requires EndsWithLast(s, lines)
    ensures EndsWithLast([c] + s, if c == '\n' then [""] + lines else [[c] + lines[0]] + lines[1..])
  {
    CharInFront(c, s, lines[|lines| - 1]);
    if |lines| == 1 {
      assert lines[0] == s[|s| - |lines[0]|..] == s;
    }
  }

  /** The last line is the part of the text behind its last newline. */
  lemma {:induction false} LastLineIs(s: string)
    ensures EndsWithLast(s, Text.Split(s)) && BehindLastNewline(s, LastLine(s))
  {
    if s != "" {
      LastLineIs(s[1..]);
      LastOfNext(s[0], s[1..], Text.Split(s[1..]));
      assert [s[0]] + s[1..] == s;
    }
  }

  // ---- what one chunk does, in the order of the code ----

  function Team(status: Status): seq<Effect> {
    [SetStatus(BullResearcher, status), SetStatus(BearResearcher, status),
     SetStatus(ResearchManager, status), SetStatus(Trader, status)]
  }

  function CallEffects(calls: seq<ToolCall>): seq<Effect> {
    if calls == [] then []
    else CallEffects(calls[..|calls| - 1]) + [Call(calls[|calls| - 1].name, calls[|calls| - 1].args)]
  }

  function MessageEffects(m: Message): seq<Effect> {
    [Say(if m.hasContent then "Reasoning" else "System", m.content)] + CallEffects(m.toolCalls)
  }

  /** An analyst's report: store it, complete the analyst, start the next one if it was selected. */
  function ReportEffects(c: Chunk, section: Section, agent: Agent, next: Agent, nextSelected: bool): seq<Effect> {
    if !c.Has(section) then []
    else
      [Put(section, c.reports[section]), SetStatus(agent, Completed)]
      + if nextSelected then [SetStatus(next, InProgress)] else []
  }

  function FundamentalsEffects(c: Chunk): seq<Effect> {
    if !c.Has(FundamentalsReport) then []
    else
      [Put(FundamentalsReport, c.reports[FundamentalsReport]), SetStatus(FundamentalsAnalyst, Completed)]
      + Team(InProgress)
  }

  function BullEffects(c: Chunk): seq<Effect> {
    if c.debate.bullHistory == "" then []
    else
      var latest := LastLine(c.debate.bullHistory);
      Team(InProgress)
      + if latest == "" then []
        else [Say("Reasoning", latest), Put(InvestmentPlan, Some(BullBlock(latest)))]
  }

  function BearEffects(c: Chunk): seq<Effect> {
    if c.debate.bearHistory == "" then []
    else
      var latest := LastLine(c.debate.bearHistory);
      Team(InProgress)
      + if latest == "" then []
        else [Say("Reasoning", latest), Extend(InvestmentPlan, BearBlock(latest))]
  }

  function ManagerEffects(c: Chunk): seq<Effect> {
    var decision := c.debate.judgeDecision;
    if decision == "" then []
    else
      Team(InProgress)
      + [Say("Reasoning", "Research Manager: " + decision), Extend(InvestmentPlan, ManagerBlock(decision))]
      + Team(Completed)
      + [SetStatus(RiskyAnalyst, InProgress)]
  }

  function BullBlock(text: string): string {
    "### Bull Researcher Analysis\n" + text
  }

  function BearBlock(text: string): string {
    "### Bear Researcher Analysis\n" + text
  }

  function ManagerBlock(text: string): string {
    "### Research Manager Decision\n" + text
  }

  function TraderEffects(c: Chunk): seq<Effect> {
    if !c.Has(TraderInvestmentPlan) then []
    else
      [Put(TraderInvestmentPlan, c.reports[TraderInvestmentPlan]), SetStatus(RiskyAnalyst, InProgress)]
  }

  function RiskName(agent: Agent): string {
    match agent
    case RiskyAnalyst => "Risky Analyst"
    case SafeAnalyst => "Safe Analyst"
    case NeutralAnalyst => "Neutral Analyst"
    case _ => "Portfolio Manager"
  }

  /** One voice of the risk debate speaks. */
  function RiskEffects(agent: Agent, response: string, kind: string): seq<Effect> {
    if response == "" then []
    else
      [SetStatus(agent, InProgress),
       Say("Reasoning", RiskName(agent) + ": " + response),
       Put(FinalTradeDecision, Some("### " + RiskName(agent) + kind + response))]
  }

  function RiskDone(c: Chunk): seq<Effect> {
    if c.risk.judgeDecision == "" then []
    else
      [SetStatus(RiskyAnalyst, Completed), SetStatus(SafeAnalyst, Completed),
       SetStatus(NeutralAnalyst, Completed), SetStatus(PortfolioManager, Completed)]
  }

  function AnalystEffects(c: Chunk, selected: seq<Analyst>): seq<Effect> {
    ReportEffects(c, MarketReport, MarketAnalyst, SocialAnalyst, Social in selected)
    + ReportEffects(c, SentimentReport, SocialAnalyst, NewsAnalyst, News in selected)
    + ReportEffects(c, NewsReport, NewsAnalyst, FundamentalsAnalyst, Fundamentals in selected)
    + FundamentalsEffects(c)
  }

  function DebateEffects(c: Chunk): seq<Effect> {
    BullEffects(c) + BearEffects(c) + ManagerEffects(c)
  }

  function RiskDebateEffects(c: Chunk): seq<Effect> {
    RiskEffects(RiskyAnalyst, c.risk.risky, " Analysis\n")
    + RiskEffects(SafeAnalyst, c.risk.safe, " Analysis\n")
    + RiskEffects(NeutralAnalyst, c.risk.neutral, " Analysis\n")
    + RiskEffects(PortfolioManager, c.risk.judgeDecision, " Decision\n")
    + RiskDone(c)
  }

  /** A chunk without messages is only kept in the trace. */
  function Effects(c: Chunk, selected: seq<Analyst>): seq<Effect> {
    if c.messages == [] then []
    else
      MessageEffects(c.messages[|c.messages| - 1])
      + AnalystEffects(c, selected) + DebateEffects(c) + TraderEffects(c) + RiskDebateEffects(c)
  }

  // ---- the statuses after a chunk ----

  /** The status that a list of effects leaves an agent with, if it sets one. */
  function LastSet(effects: seq<Effect>, a: Agent): Option<Status> {
    if effects == [] then None
    else
      var last := effects[|effects| - 1];
      if last.SetStatus? && last.agent == a then Some(last.status)
      else LastSet(effects[..|effects| - 1], a)
  }

  function Or<T>(first: Option<T>, second: Option<T>): Option<T> {
    if second.Some? then second else first
  }

  lemma {:induction false} LastSetAppend(first: seq<Effect>, second: seq<Effect>, a: Agent)
    ensures LastSet(first + second, a) == Or(LastSet(first, a), LastSet(second, a))
    decreases |second|
  {
    if second == [] {
      assert first + second == first;
    } else {
      var front, last := second[..|second| - 1], second[|second| - 1];
      LastSetAppend(first, front, a);
      assert (first + second)[..|first + second| - 1] == first + front;
    }
  }

  lemma {:induction false} StatusAfter(v: Panel, effects: seq<Effect>, a: Agent)
    requires Tracked(a) && a in v.status
    ensures a in v.DoAll(effects).status
    ensures v.DoAll(effects).status[a] == Or(Some(v.status[a]), LastSet(effects, a)).value
    decreases |effects|
  {
    if effects != [] {
      StatusAfter(v, effects[..|effects| - 1], a);
    }
  }

  /** The status that a chunk decides for an agent, whatever the status was before. */
  function Verdict(c: Chunk, selected: seq<Analyst>, a: Agent): Option<Status> {
    if c.messages == [] then None
    else if Finishes(c, a) then Some(Completed)
    else if Starts(c, selected, a) then Some(InProgress)
    else None
  }

  predicate Finishes(c: Chunk, a: Agent) {
    match a
    case MarketAnalyst => c.Has(MarketReport)
    case SocialAnalyst => c.Has(SentimentReport)
    case NewsAnalyst => c.Has(NewsReport)
    case FundamentalsAnalyst => c.Has(FundamentalsReport)
    case BullResearcher => c.debate.judgeDecision != ""
    case BearResearcher => c.debate.judgeDecision != ""
    case ResearchManager => c.debate.judgeDecision != ""
    case Trader => c.debate.judgeDecision != ""
    case OtherAgent(_) => false
    case _ => c.risk.judgeDecision != ""
  }

  predicate Starts(c: Chunk, selected: seq<Analyst>, a: Agent) {
    match a
    case SocialAnalyst => c.Has(MarketReport) && Social in selected
    case NewsAnalyst => c.Has(SentimentReport) && News in selected
    case FundamentalsAnalyst => c.Has(NewsReport) && Fundamentals in selected
    case BullResearcher => TeamWorks(c)
    case BearResearcher => TeamWorks(c)
    case ResearchManager => TeamWorks(c)
    case Trader => TeamWorks(c)
    case RiskyAnalyst => c.debate.judgeDecision != "" || c.Has(TraderInvestmentPlan) || c.risk.risky != ""
    case SafeAnalyst => c.risk.safe != ""
    case NeutralAnalyst => c.risk.neutral != ""
    case _ => false
  }

  predicate TeamWorks(c: Chunk) {
    c.Has(FundamentalsReport) || c.debate.bullHistory != "" || c.debate.bearHistory != ""
  }

  function OneSet(e: Effect, a: Agent): Option<Status> {
    if e.SetStatus? && e.agent == a then Some(e.status) else None
  }

  lemma LastOfTwo(x: Effect, y: Effect, a: Agent)
    ensures LastSet([x, y], a) == Or(OneSet(x, a), OneSet(y, a))
  {
    assert [x][..0] == [];
    assert LastSet([x], a) == OneSet(x, a);
    assert [x, y][..1] == [x];
  }

  lemma LastOfThree(x: Effect, y: Effect, z: Effect, a: Agent)
    ensures LastSet([x, y, z], a) == Or(Or(OneSet(x, a), OneSet(y, a)), OneSet(z, a))
  {
    assert [x, y, z][..2] == [x, y];
    LastOfTwo(x, y, a);
  }

  lemma LastOfFour(w: Effect, x: Effect, y: Effect, z: Effect, a: Agent)
    ensures LastSet([w, x, y, z], a) == Or(Or(Or(OneSet(w, a), OneSet(x, a)), OneSet(y, a)), OneSet(z, a))
  {
    assert [w, x, y, z][..3] == [w, x, y];
    LastOfThree(w, x, y, a);
  }

  predicate InTeam(a: Agent) {
    a.BullResearcher? || a.BearResearcher? || a.ResearchManager? || a.Trader?
  }

  lemma TeamLast(status: Status, a: Agent)
    ensures LastSet(Team(status), a) == if InTeam(a) then Some(status) else None
  {
    LastOfFour(SetStatus(BullResearcher, status), SetStatus(BearResearcher, status),
               SetStatus(ResearchManager, status), SetStatus(Trader, status), a);
  }

  lemma {:induction false} MessageLast(m: Message, a: Agent)
    ensures LastSet(MessageEffects(m), a) == None
  {
    CallsLast(m.toolCalls, a);
    LastSetAppend([Say(if m.hasContent then "Reasoning" else "System", m.content)], CallEffects(m.toolCalls), a);
  }

  lemma {:induction false} CallsLast(calls: seq<ToolCall>, a: Agent)
    ensures LastSet(CallEffects(calls), a) == None
    decreases |calls|
  {
    if calls != [] {
      CallsLast(calls[..|calls| - 1], a);
    }
  }

  lemma ReportLast(c: Chunk, section: Section, agent: Agent, next: Agent, nextSelected: bool, a: Agent)
    requires agent != next
    ensures LastSet(ReportEffects(c, section, agent, next, nextSelected), a) ==
            if !c.Has(section) then None
            else if a == agent then Some(Completed)
            else if a == next && nextSelected then Some(InProgress)
            else None
  {
    if c.Has(section) {
      StoredLast(Put(section, c.reports[section]), agent, next, nextSelected, a);
    }
  }

  lemma StoredLast(put: Effect, agent: Agent, next: Agent, nextSelected: bool, a: Agent)
    requires put.Put? && agent != next
    ensures LastSet([put, SetStatus(agent, Completed)] + (if nextSelected then [SetStatus(next, InProgress)] else []), a) ==
            if a == agent then Some(Completed) else if a == next && nextSelected then Some(InProgress) else None
  {
    var done, start := SetStatus(agent, Completed), SetStatus(next, InProgress);
    LastOfTwo(put, done, a);
    if nextSelected {
      LastOfThree(put, done, start, a);
      assert [put, done] + [start] == [put, done, start];
    } else {
      assert [put, done] + [] == [put, done];
    }
  }

  lemma FundamentalsLast(c: Chunk, a: Agent)
    ensures LastSet(FundamentalsEffects(c), a) ==
            if !c.Has(FundamentalsReport) then None
            else if a.FundamentalsAnalyst? then Some(Completed)
            else if InTeam(a) then Some(InProgress)
            else None
  {
    if c.Has(FundamentalsReport) {
      var put, done := Put(FundamentalsReport, c.reports[FundamentalsReport]), SetStatus(FundamentalsAnalyst, Completed);
      LastOfTwo(put, done, a);
      TeamLast(InProgress, a);
      LastSetAppend([put, done], Team(InProgress), a);
    }
  }

  lemma VoiceLast(say: Effect, write: Effect, spoken: bool, a: Agent)
    requires !say.SetStatus? && !write.SetStatus?
    ensures LastSet(Team(InProgress) + (if spoken then [say, write] else []), a) ==
            if InTeam(a) then Some(InProgress) else None
  {
    LastOfTwo(say, write, a);
    TeamLast(InProgress, a);
    LastSetAppend(Team(InProgress), if spoken then [say, write] else [], a);
  }

  lemma BullLast(c: Chunk, a: Agent)
    ensures LastSet(BullEffects(c), a) ==
            if c.debate.bullHistory != "" && InTeam(a) then Some(InProgress) else None
  {
    var latest := LastLine(c.debate.bullHistory);
    VoiceLast(Say("Reasoning", latest), Put(InvestmentPlan, Some(BullBlock(latest))), latest != "", a);
  }

  lemma BearLast(c: Chunk, a: Agent)
    ensures LastSet(BearEffects(c), a) ==
            if c.debate.bearHistory != "" && InTeam(a) then Some(InProgress) else None
  {
    var latest := LastLine(c.debate.bearHistory);
    VoiceLast(Say("Reasoning", latest), Extend(InvestmentPlan, BearBlock(latest)), latest != "", a);
  }

  lemma ManagerLast(c: Chunk, a: Agent)
    ensures LastSet(ManagerEffects(c), a) ==
            if c.debate.judgeDecision == "" then None
            else if InTeam(a) then Some(Completed)
            else if a.RiskyAnalyst? then Some(InProgress)
            else None
  {
    var decision := c.debate.judgeDecision;
    var say, write := Say("Reasoning", "Research Manager: " + decision), Extend(InvestmentPlan, ManagerBlock(decision));
    VoiceLast(say, write, true, a);
    TeamLast(Completed, a);
    LastSetAppend(Team(InProgress) + [say, write], Team(Completed), a);
    LastSetAppend(Team(InProgress) + [say, write] + Team(Completed), [SetStatus(RiskyAnalyst, InProgress)], a);
  }

  function TraderVerdict(c: Chunk, a: Agent): Option<Status> {
    if c.Has(TraderInvestmentPlan) && a.RiskyAnalyst? then Some(InProgress) else None
  }

  lemma TraderLast(c: Chunk, a: Agent)
    ensures LastSet(TraderEffects(c), a) == TraderVerdict(c, a)
  {
    if c.Has(TraderInvestmentPlan) {
      LastOfTwo(Put(TraderInvestmentPlan, c.reports[TraderInvestmentPlan]), SetStatus(RiskyAnalyst, InProgress), a);
    }
  }

  lemma RiskLast(agent: Agent, response: string, kind: string, a: Agent)
    ensures LastSet(RiskEffects(agent, response, kind), a) ==
            if response != "" && a == agent then Some(InProgress) else None
  {
    if response != "" {
      LastOfThree(SetStatus(agent, InProgress),
                  Say("Reasoning", RiskName(agent) + ": " + response),
                  Put(FinalTradeDecision, Some("### " + RiskName(agent) + kind + response)), a);
    }
  }

  predicate InRiskTeam(a: Agent) {
    a.RiskyAnalyst? || a.SafeAnalyst? || a.NeutralAnalyst? || a.PortfolioManager?
  }

  lemma RiskDoneLast(c: Chunk, a: Agent)
    ensures LastSet(RiskDone(c), a) ==
            if c.risk.judgeDecision != "" && InRiskTeam(a) then Some(Completed) else None
  {
    LastOfFour(SetStatus(RiskyAnalyst, Completed), SetStatus(SafeAnalyst, Completed),
               SetStatus(NeutralAnalyst, Completed), SetStatus(PortfolioManager, Completed), a);
  }

  function AnalystVerdict(c: Chunk, selected: seq<Analyst>, a: Agent): Option<Status> {
    match a
    case MarketAnalyst => if c.Has(MarketReport) then Some(Completed) else None
    case SocialAnalyst =>
      if c.Has(SentimentReport) then Some(Completed)
      else if c.Has(MarketReport) && Social in selected then Some(InProgress) else None
    case NewsAnalyst =>
      if c.Has(NewsReport) then Some(Completed)
      else if c.Has(SentimentReport) && News in selected then Some(InProgress) else None
    case FundamentalsAnalyst =>
      if c.Has(FundamentalsReport) then Some(Completed)
      else if c.Has(NewsReport) && Fundamentals in selected then Some(InProgress) else None
    case _ => if c.Has(FundamentalsReport) && InTeam(a) then Some(InProgress) else None
  }

  lemma AnalystLast(c: Chunk, selected: seq<Analyst>, a: Agent)
    ensures LastSet(AnalystEffects(c, selected), a) == AnalystVerdict(c, selected, a)
  {
    var market := ReportEffects(c, MarketReport, MarketAnalyst, SocialAnalyst, Social in selected);
    var social := ReportEffects(c, SentimentReport, SocialAnalyst, NewsAnalyst, News in selected);
    var news := ReportEffects(c, NewsReport, NewsAnalyst, FundamentalsAnalyst, Fundamentals in selected);
    LastOfParts(market, social, news, FundamentalsEffects(c), a);
    ReportLast(c, MarketReport, MarketAnalyst, SocialAnalyst, Social in selected, a);
    ReportLast(c, SentimentReport, SocialAnalyst, NewsAnalyst, News in selected, a);
    ReportLast(c, NewsReport, NewsAnalyst, FundamentalsAnalyst, Fundamentals in selected, a);
    FundamentalsLast(c, a);
  }

  lemma LastOfParts(first: seq<Effect>, second: seq<Effect>, third: seq<Effect>, fourth: seq<Effect>, a: Agent)
    ensures LastSet(first + second + third + fourth, a) ==
            Or(Or(Or(LastSet(first, a), LastSet(second, a)), LastSet(third, a)), LastSet(fourth, a))
  {
    LastSetAppend(first, second, a);
    LastSetAppend(first + second, third, a);
    LastSetAppend(first + second + third, fourth, a);
  }

  function DebateVerdict(c: Chunk, a: Agent): Option<Status> {
    if c.debate.judgeDecision != "" && InTeam(a) then Some(Completed)
    else if c.debate.judgeDecision != "" && a.RiskyAnalyst? then Some(InProgress)
    else if (c.debate.bullHistory != "" || c.debate.bearHistory != "") && InTeam(a) then Some(InProgress)
    else None
  }

  lemma DebateLast(c: Chunk, a: Agent)
    ensures LastSet(DebateEffects(c), a) == DebateVerdict(c, a)
  {
    BullLast(c, a);
    BearLast(c, a);
    ManagerLast(c, a);
    LastSetAppend(BullEffects(c), BearEffects(c), a);
    LastSetAppend(BullEffects(c) + BearEffects(c), ManagerEffects(c), a);
  }

  function RiskVerdict(c: Chunk, a: Agent): Option<Status> {
    if c.risk.judgeDecision != "" && InRiskTeam(a) then Some(Completed)
    else if (a.RiskyAnalyst? && c.risk.risky != "") || (a.SafeAnalyst? && c.risk.safe != "")
            || (a.NeutralAnalyst? && c.risk.neutral != "") then Some(InProgress)
    else None
  }

  lemma RiskDebateLast(c: Chunk, a: Agent)
    ensures LastSet(RiskDebateEffects(c), a) == RiskVerdict(c, a)
  {
    var risky := RiskEffects(RiskyAnalyst, c.risk.risky, " Analysis\n");
    var safe := RiskEffects(SafeAnalyst, c.risk.safe, " Analysis\n");
    var neutral := RiskEffects(NeutralAnalyst, c.risk.neutral, " Analysis\n");
    var judge := RiskEffects(PortfolioManager, c.risk.judgeDecision, " Decision\n");
    LastOfParts(risky, safe, neutral, judge, a);
    LastSetAppend(risky + safe + neutral + judge, RiskDone(c), a);
    RiskLast(RiskyAnalyst, c.risk.risky, " Analysis\n", a);
    RiskLast(SafeAnalyst, c.risk.safe, " Analysis\n", a);
    RiskLast(NeutralAnalyst, c.risk.neutral, " Analysis\n", a);
    RiskLast(PortfolioManager, c.risk.judgeDecision, " Decision\n", a);
    RiskDoneLast(c, a);
  }

  lemma VerdictOfParts(c: Chunk, selected: seq<Analyst>, a: Agent)
    requires c.messages != []
    ensures Or(Or(Or(AnalystVerdict(c, selected, a), DebateVerdict(c, a)), TraderVerdict(c, a)), RiskVerdict(c, a))
            == Verdict(c, selected, a)
  {
  }

  /** What survives of a chunk, after all its overwriting: each agent is left with the verdict. */
  lemma VerdictIsLast(c: Chunk, selected: seq<Analyst>, a: Agent)
    ensures LastSet(Effects(c, selected), a) == Verdict(c, selected, a)
  {
    if c.messages != [] {
      MessageLast(c.messages[|c.messages| - 1], a);
      SplitLast(MessageEffects(c.messages[|c.messages| - 1]), AnalystEffects(c, selected), DebateEffects(c),
                TraderEffects(c), RiskDebateEffects(c), a);
      AnalystLast(c, selected, a);
      DebateLast(c, a);
      TraderLast(c, a);
      RiskDebateLast(c, a);
      VerdictOfParts(c, selected, a);
    }
  }

  lemma SplitLast(said: seq<Effect>, analysts: seq<Effect>, debate: seq<Effect>, trader: seq<Effect>, risk: seq<Effect>,
                  a: Agent)
    requires LastSet(said, a) == None
    ensures LastSet(said + analysts + debate + trader + risk, a) ==
            Or(Or(Or(LastSet(analysts, a), LastSet(debate, a)), LastSet(trader, a)), LastSet(risk, a))
  {
    LastOfParts(said, analysts, debate, trader, a);
    LastSetAppend(said + analysts + debate + trader, risk, a);
  }

  // ---- statuses over a whole stream ----

  /** The effects of each chunk. */
  function Batches(chunks: seq<Chunk>, selected: seq<Analyst>): (batches: seq<seq<Effect>>)
    ensures |batches| == |chunks|
  {
    seq(|chunks|, i requires 0 <= i < |chunks| => Effects(chunks[i], selected))
  }

  function Fold(v: Panel, batches: seq<seq<Effect>>, n: nat): Panel
    requires n <= |batches|
  {
    if n == 0 then v else Fold(v, batches, n - 1).DoAll(batches[n - 1])
  }

  /** The buffer after the first `n` chunks. */
  function Through(v: Panel, chunks: seq<Chunk>, selected: seq<Analyst>, n: nat): Panel
    requires n <= |chunks|
  {
    Fold(v, Batches(chunks, selected), n)
  }

  function LastSetIn(batches: seq<seq<Effect>>, n: nat, a: Agent): Option<Status>
    requires n <= |batches|
  {
    if n == 0 then None else Or(LastSetIn(batches, n - 1, a), LastSet(batches[n - 1], a))
  }

  lemma {:induction false} StatusAfterFold(v: Panel, batches: seq<seq<Effect>>, n: nat, a: Agent)
    requires n <= |batches| && Tracked(a) && a in v.status
    ensures a in Fold(v, batches, n).status
    ensures Fold(v, batches, n).status[a] == Or(Some(v.status[a]), LastSetIn(batches, n, a)).value
  {
    if n > 0 {
      StatusAfterFold(v, batches, n - 1, a);
      StatusAfter(Fold(v, batches, n - 1), batches[n - 1], a);
    }
  }

  function Verdicts(chunks: seq<Chunk>, selected: seq<Analyst>, a: Agent): (verdicts: seq<Option<Status>>)
    ensures |verdicts| == |chunks|
  {
    seq(|chunks|, i requires 0 <= i < |chunks| => Verdict(chunks[i], selected, a))
  }

  function Latest<T>(items: seq<Option<T>>, n: nat): Option<T>
    requires n <= |items|
  {
    if n == 0 then None else Or(Latest(items, n - 1), items[n - 1])
  }

  /** What the latest chunk among the first `n` that decides the status of `a` decides. */
  function Decided(chunks: seq<Chunk>, selected: seq<Analyst>, n: nat, a: Agent): Option<Status>
    requires n <= |chunks|
  {
    Latest(Verdicts(chunks, selected, a), n)
  }

  lemma {:induction false} LatestOfBatches(
      batches: seq<seq<Effect>>, verdicts: seq<Option<Status>>, n: nat, a: Agent)
    requires n <= |batches| == |verdicts|
    requires forall i :: 0 <= i < n ==> LastSet(batches[i], a) == verdicts[i]
    ensures LastSetIn(batches, n, a) == Latest(verdicts, n)
  {
    if n > 0 {
      LatestOfBatches(batches, verdicts, n - 1, a);
    }
  }

  lemma DecidedIsLast(chunks: seq<Chunk>, selected: seq<Analyst>, n: nat, a: Agent)
    requires n <= |chunks|
    ensures Decided(chunks, selected, n, a) == LastSetIn(Batches(chunks, selected), n, a)
  {
    var batches, verdicts := Batches(chunks, selected), Verdicts(chunks, selected, a);
    forall i | 0 <= i < n ensures LastSet(batches[i], a) == verdicts[i] {
      VerdictIsLast(chunks[i], selected, a);
    }
    LatestOfBatches(batches, verdicts, n, a);
  }

  /** At a boundary an agent has the status last decided for it, or else the one it started with. */
  lemma StatusAtBoundary(v: Panel, chunks: seq<Chunk>, selected: seq<Analyst>, n: nat, a: Agent)
    requires n <= |chunks| && Tracked(a) && a in v.status
    ensures a in Through(v, chunks, selected, n).status
    ensures Through(v, chunks, selected, n).status[a] == Or(Some(v.status[a]), Decided(chunks, selected, n, a)).value
  {
    StatusAfterFold(v, Batches(chunks, selected), n, a);
    DecidedIsLast(chunks, selected, n, a);
  }

  /** A chunk makes an agent fall back exactly when it was completed and the chunk starts it without
      finishing it. */
  lemma FallsBackIff(v: Panel, c: Chunk, selected: seq<Analyst>, a: Agent)
    requires Tracked(a) && a in v.status
    ensures a in v.DoAll(Effects(c, selected)).status
    ensures v.DoAll(Effects(c, selected)).status[a].Rank() < v.status[a].Rank() <==>
            v.status[a].Completed? && Restarts(c, selected, a)
  {
    StatusAfter(v, Effects(c, selected), a);
    VerdictIsLast(c, selected, a);
  }

  /** Every text of `c` that is not empty has a counterpart in `d`. */
  predicate Covers(d: Chunk, c: Chunk) {
    && (c.Has(MarketReport) ==> d.Has(MarketReport))
    && (c.Has(SentimentReport) ==> d.Has(SentimentReport))
    && (c.Has(NewsReport) ==> d.Has(NewsReport))
    && (c.Has(FundamentalsReport) ==> d.Has(FundamentalsReport))
    && (c.Has(TraderInvestmentPlan) ==> d.Has(TraderInvestmentPlan))
    && (c.debate.bullHistory != "" ==> d.debate.bullHistory != "")
    && (c.debate.bearHistory != "" ==> d.debate.bearHistory != "")
    && (c.debate.judgeDecision != "" ==> d.debate.judgeDecision != "")
    && (c.risk.risky != "" ==> d.risk.risky != "")
    && (c.risk.safe != "" ==> d.risk.safe != "")
    && (c.risk.neutral != "" ==> d.risk.neutral != "")
    && (c.risk.judgeDecision != "" ==> d.risk.judgeDecision != "")
  }

  /** Once not empty, a text stays not empty; chunks without messages need not comply. */
  ghost predicate Lasting(chunks: seq<Chunk>) {
    forall i, j :: 0 <= i <= j < |chunks| && chunks[i].messages != [] && chunks[j].messages != [] ==>
      Covers(chunks[j], chunks[i])
  }

  lemma VerdictGrows(d: Chunk, c: Chunk, selected: seq<Analyst>, a: Agent)
    requires Covers(d, c) && c.messages != [] && d.messages != []
    ensures Verdict(c, selected, a).Some? ==>
              Verdict(d, selected, a).Some? && Verdict(d, selected, a).value.Rank() >= Verdict(c, selected, a).value.Rank()
  {
  }

  /** In a lasting stream, what was decided so far is what the latest chunk with messages decides. */
  lemma {:induction false} DecidedByLatest(chunks: seq<Chunk>, selected: seq<Analyst>, n: nat, m: nat, a: Agent)
    requires Lasting(chunks) && m < n <= |chunks| && chunks[m].messages != []
    requires forall i :: m < i < n ==> chunks[i].messages == []
    ensures Decided(chunks, selected, n, a) == Verdict(chunks[m], selected, a)
  {
    if m < n - 1 {
      DecidedByLatest(chunks, selected, n - 1, m, a);
    } else {
      DecidedBelow(chunks, selected, m, m, a);
    }
  }

  lemma {:induction false} DecidedBelow(chunks: seq<Chunk>, selected: seq<Analyst>, n: nat, m: nat, a: Agent)
    requires Lasting(chunks) && n <= m < |chunks| && chunks[m].messages != []
    ensures Decided(chunks, selected, n, a).Some? ==>
              && Verdict(chunks[m], selected, a).Some?
              && Decided(chunks, selected, n, a).value.Rank() <= Verdict(chunks[m], selected, a).value.Rank()
  {
    if n > 0 {
      DecidedBelow(chunks, selected, n - 1, m, a);
      if chunks[n - 1].messages != [] {
        VerdictGrows(chunks[m], chunks[n - 1], selected, a);
      }
    }
  }

  lemma {:induction false} DecidedGrows(chunks: seq<Chunk>, selected: seq<Analyst>, i: nat, n: nat, a: Agent)
    requires Lasting(chunks) && i <= n <= |chunks|
    ensures Decided(chunks, selected, i, a).Some? ==>
              && Decided(chunks, selected, n, a).Some?
              && Decided(chunks, selected, i, a).value.Rank() <= Decided(chunks, selected, n, a).value.Rank()
  {
    if i < n {
      DecidedGrows(chunks, selected, i, n - 1, a);
      if chunks[n - 1].messages != [] {
        DecidedBelow(chunks, selected, i, n - 1, a);
      }
    }
  }

  /** No agent falls back from one chunk boundary to a later one, although inside a chunk statuses are
      pulled back again and again. At the start no agent is completed. */
  lemma NoStatusFallsBack(v: Panel, chunks: seq<Chunk>, selected: seq<Analyst>, i: nat, n: nat, a: Agent)
    requires Lasting(chunks) && i <= n <= |chunks|
    requires Tracked(a) && a in v.status && v.status[a] != Completed
    ensures a in Through(v, chunks, selected, i).status && a in Through(v, chunks, selected, n).status
    ensures Through(v, chunks, selected, i).status[a].Rank() <= Through(v, chunks, selected, n).status[a].Rank()
  {
    StatusAtBoundary(v, chunks, selected, i, a);
    StatusAtBoundary(v, chunks, selected, n, a);
    DecidedGrows(chunks, selected, i, n, a);
    DecidedStarted(chunks, selected, n, a);
  }

  lemma {:induction false} DecidedStarted(chunks: seq<Chunk>, selected: seq<Analyst>, n: nat, a: Agent)
    requires n <= |chunks|
    ensures Decided(chunks, selected, n, a) != Some(Pending)
  {
    if n > 0 {
      DecidedStarted(chunks, selected, n - 1, a);
    }
  }

  /** The chunk starts the agent without finishing it. */
  predicate Restarts(c: Chunk, selected: seq<Analyst>, a: Agent) {
    c.messages != [] && Starts(c, selected, a) && !Finishes(c, a)
  }

  /** The statuses in front of chunk `n` and behind it. */
  lemma StatusesAround(v: Panel, chunks: seq<Chunk>, selected: seq<Analyst>, n: nat, a: Agent)
    returns (before: Status, after: Status)
    requires n < |chunks| && Tracked(a) && a in v.status
    ensures a in Through(v, chunks, selected, n).status && before == Through(v, chunks, selected, n).status[a]
    ensures a in Through(v, chunks, selected, n + 1).status && after == Through(v, chunks, selected, n + 1).status[a]
    ensures before == Or(Some(v.status[a]), Decided(chunks, selected, n, a)).value
    ensures after ==
            Or(Some(v.status[a]), Or(Decided(chunks, selected, n, a), Verdict(chunks[n], selected, a))).value
  {
    StatusAtBoundary(v, chunks, selected, n, a);
    StatusAtBoundary(v, chunks, selected, n + 1, a);
    DecidedNext(chunks, selected, n, a);
    before := Through(v, chunks, selected, n).status[a];
    after := Through(v, chunks, selected, n + 1).status[a];
  }

  /** In terms of the stream alone: an agent falls back at chunk `n` exactly when the chunks before have
      completed it and this one starts it without finishing it. */
  lemma FallsBackAtIff(v: Panel, chunks: seq<Chunk>, selected: seq<Analyst>, n: nat, a: Agent)
    returns (before: Status, after: Status)
    requires n < |chunks| && Tracked(a) && a in v.status && v.status[a] != Completed
    ensures a in Through(v, chunks, selected, n).status && before == Through(v, chunks, selected, n).status[a]
    ensures a in Through(v, chunks, selected, n + 1).status && after == Through(v, chunks, selected, n + 1).status[a]
    ensures after.Rank() < before.Rank() <==>
            Decided(chunks, selected, n, a) == Some(Completed) && Restarts(chunks[n], selected, a)
  {
    before, after := StatusesAround(v, chunks, selected, n, a);
    DecidedStarted(chunks, selected, n, a);
    VerdictStartsIff(chunks[n], selected, a);
    FallIff(v.status[a], Decided(chunks, selected, n, a), Verdict(chunks[n], selected, a));
  }

  lemma DecidedNext(chunks: seq<Chunk>, selected: seq<Analyst>, n: nat, a: Agent)
    requires n < |chunks|
    ensures Decided(chunks, selected, n + 1, a) == Or(Decided(chunks, selected, n, a), Verdict(chunks[n], selected, a))
  {
  }

  lemma VerdictStartsIff(c: Chunk, selected: seq<Analyst>, a: Agent)
    ensures Verdict(c, selected, a) != Some(Pending)
    ensures Verdict(c, selected, a) == Some(InProgress) <==> Restarts(c, selected, a)
  {
  }

  lemma FallIff(start: Status, decided: Option<Status>, verdict: Option<Status>)
    requires start != Completed && decided != Some(Pending) && verdict != Some(Pending)
    ensures Or(Some(start), Or(decided, verdict)).value.Rank() < Or(Some(start), decided).value.Rank() <==>
            decided == Some(Completed) && verdict == Some(InProgress)
  {
  }

  /** A chunk that finishes the trader, then one that starts the team without finishing it. */
  lemma TraderFallsBack(v: Panel, first: Chunk, second: Chunk, selected: seq<Analyst>)
    requires Trader in v.status && first.messages != [] && second.messages != []
    requires first.debate.judgeDecision != "" && second.debate.judgeDecision == "" && second.debate.bullHistory != ""
    ensures Trader in Through(v, [first, second], selected, 1).status
    ensures Trader in Through(v, [first, second], selected, 2).status
    ensures Through(v, [first, second], selected, 1).status[Trader] == Completed
    ensures Through(v, [first, second], selected, 2).status[Trader] == InProgress
  {
    var chunks := [first, second];
    StatusAtBoundary(v, chunks, selected, 1, Trader);
    StatusAtBoundary(v, chunks, selected, 2, Trader);
    DecidedNext(chunks, selected, 0, Trader);
    DecidedNext(chunks, selected, 1, Trader);
  }

  /** When a text vanishes, an agent can fall back: the team is completed, then its judge is silent. */
  lemma VanishingTextFallsBack()
    ensures var m := Message(true, "", []);
            var first := Chunk([m], map[], Debate("a", "", "b"), Risk("", "", "", ""));
            var second := Chunk([m], map[], Debate("a", "", ""), Risk("", "", "", ""));
            var v := Panel(AllAre(Pending), None, NoSections(), None, [], []);
            && Trader in Through(v, [first, second], [Market], 1).status
            && Trader in Through(v, [first, second], [Market], 2).status
            && Through(v, [first, second], [Market], 1).status[Trader] == Completed
            && Through(v, [first, second], [Market], 2).status[Trader] == InProgress
  {
    var m := Message(true, "", []);
    var first := Chunk([m], map[], Debate("a", "", "b"), Risk("", "", "", ""));
    var second := Chunk([m], map[], Debate("a", "", ""), Risk("", "", "", ""));
    TraderFallsBack(Panel(AllAre(Pending), None, NoSections(), None, [], []), first, second, [Market]);
  }
}
