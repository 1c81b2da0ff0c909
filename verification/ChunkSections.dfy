/** cli/main.py, run_analysis: which text each report section holds after a chunk. */
module ChunkSections {
  import opened Common
  import opened Reports
  import opened MessageBuffer
  import opened AnalysisStream

  /** The content that a list of effects last puts into a section, if it does. */
  function LastPut(effects: seq<Effect>, s: Section): Option<Option<string>> {
    if effects == [] then None
    else
      var last := effects[|effects| - 1];
      if last.Put? && last.section == s then Some(last.content)
      else LastPut(effects[..|effects| - 1], s)
  }

  function OnePut(e: Effect, s: Section): Option<Option<string>> {
    if e.Put? && e.section == s then Some(e.content) else None
  }

  lemma {:induction false} LastPutAppend(first: seq<Effect>, second: seq<Effect>, s: Section)
    ensures LastPut(first + second, s) == Or(LastPut(first, s), LastPut(second, s))
    decreases |second|
  {
    if second == [] {
      assert first + second == first;
    } else {
      var front := second[..|second| - 1];
      LastPutAppend(first, front, s);
      assert (first + second)[..|first + second| - 1] == first + front;
    }
  }

  /** Nothing extends the section. */
  predicate NotExtended(effects: seq<Effect>, s: Section) {
    forall i :: 0 <= i < |effects| ==> !(effects[i].Extend? && effects[i].section == s)
  }

  lemma {:induction false} SectionAfter(v: Panel, effects: seq<Effect>, s: Section)
    requires Declared(s) && s in v.sections && NotExtended(effects, s)
    ensures s in v.DoAll(effects).sections
    ensures v.DoAll(effects).sections[s] == Or(Some(v.sections[s]), LastPut(effects, s)).value
    decreases |effects|
  {
    if effects != [] {
      SectionAfter(v, effects[..|effects| - 1], s);
    }
  }

  predicate PutsNothing(effects: seq<Effect>) {
    forall i :: 0 <= i < |effects| ==> !effects[i].Put?
  }

  lemma {:induction false} NothingPut(effects: seq<Effect>, s: Section)
    requires PutsNothing(effects)
    ensures LastPut(effects, s) == None
    decreases |effects|
  {
    if effects != [] {
      NothingPut(effects[..|effects| - 1], s);
    }
  }

  /** The effects only touch the plan, if any section. */
  predicate OnlyPlan(effects: seq<Effect>) {
    forall i :: 0 <= i < |effects| ==> (effects[i].Put? || effects[i].Extend? ==> effects[i].section == InvestmentPlan)
  }

  lemma {:induction false} OnlyPlanPut(effects: seq<Effect>, s: Section)
    requires OnlyPlan(effects) && s != InvestmentPlan
    ensures LastPut(effects, s) == None
    decreases |effects|
  {
    if effects != [] {
      OnlyPlanPut(effects[..|effects| - 1], s);
    }
  }

  /** A single `put` in front of effects that put nothing, and behind others that put nothing. */
  lemma PutBetween(before: seq<Effect>, put: Effect, after: seq<Effect>, s: Section)
    requires PutsNothing(before) && PutsNothing(after)
    ensures LastPut(before + [put] + after, s) == OnePut(put, s)
  {
    NothingPut(before, s);
    NothingPut(after, s);
    LastPutAppend(before, [put], s);
    LastPutAppend(before + [put], after, s);
    assert [put][..0] == [];
  }

  lemma {:induction false} CallsPutNothing(calls: seq<ToolCall>)
    ensures PutsNothing(CallEffects(calls))
    decreases |calls|
  {
    if calls != [] {
      CallsPutNothing(calls[..|calls| - 1]);
    }
  }

  lemma MessagePut(m: Message, s: Section)
    ensures LastPut(MessageEffects(m), s) == None
  {
    CallsPutNothing(m.toolCalls);
    NothingPut(MessageEffects(m), s);
  }

  lemma ReportPut(c: Chunk, section: Section, agent: Agent, next: Agent, nextSelected: bool, s: Section)
    ensures LastPut(ReportEffects(c, section, agent, next, nextSelected), s) ==
            if c.Has(section) && s == section then Some(c.reports[section]) else None
  {
    if c.Has(section) {
      var put, rest := Put(section, c.reports[section]),
                       [SetStatus(agent, Completed)] + if nextSelected then [SetStatus(next, InProgress)] else [];
      PutBetween([], put, rest, s);
      assert ReportEffects(c, section, agent, next, nextSelected) == [] + [put] + rest;
    }
  }

  lemma FundamentalsPut(c: Chunk, s: Section)
    ensures LastPut(FundamentalsEffects(c), s) ==
            if c.Has(FundamentalsReport) && s == FundamentalsReport then Some(c.reports[s]) else None
  {
    if c.Has(FundamentalsReport) {
      var put, rest := Put(FundamentalsReport, c.reports[FundamentalsReport]),
                       [SetStatus(FundamentalsAnalyst, Completed)] + Team(InProgress);
      PutBetween([], put, rest, s);
      assert FundamentalsEffects(c) == [] + [put] + rest;
    }
  }

  lemma TraderPut(c: Chunk, s: Section)
    ensures LastPut(TraderEffects(c), s) ==
            if c.Has(TraderInvestmentPlan) && s == TraderInvestmentPlan then Some(c.reports[s]) else None
  {
    if c.Has(TraderInvestmentPlan) {
      var put, rest := Put(TraderInvestmentPlan, c.reports[TraderInvestmentPlan]), [SetStatus(RiskyAnalyst, InProgress)];
      PutBetween([], put, rest, s);
      assert TraderEffects(c) == [] + [put] + rest;
    }
  }

  lemma RiskPut(agent: Agent, response: string, kind: string, s: Section)
    ensures LastPut(RiskEffects(agent, response, kind), s) ==
            if response != "" && s == FinalTradeDecision
            then Some(Some("### " + RiskName(agent) + kind + response)) else None
  {
    if response != "" {
      var before := [SetStatus(agent, InProgress), Say("Reasoning", RiskName(agent) + ": " + response)];
      var put := Put(FinalTradeDecision, Some("### " + RiskName(agent) + kind + response));
      PutBetween(before, put, [], s);
      assert RiskEffects(agent, response, kind) == before + [put] + [];
    }
  }

  lemma SplitPut(a: seq<Effect>, b: seq<Effect>, c: seq<Effect>, d: seq<Effect>, e: seq<Effect>, s: Section)
    ensures LastPut(a + b + c + d + e, s) ==
            Or(Or(Or(Or(LastPut(a, s), LastPut(b, s)), LastPut(c, s)), LastPut(d, s)), LastPut(e, s))
  {
    LastPutAppend(a, b, s);
    LastPutAppend(a + b, c, s);
    LastPutAppend(a + b + c, d, s);
    LastPutAppend(a + b + c + d, e, s);
  }

  lemma AnalystsPut(c: Chunk, selected: seq<Analyst>, s: Section)
    ensures LastPut(AnalystEffects(c, selected), s) ==
            if FromAnalyst(s) && c.Has(s) then Some(c.reports[s]) else None
  {
    var market := ReportEffects(c, MarketReport, MarketAnalyst, SocialAnalyst, Social in selected);
    var social := ReportEffects(c, SentimentReport, SocialAnalyst, NewsAnalyst, News in selected);
    var news := ReportEffects(c, NewsReport, NewsAnalyst, FundamentalsAnalyst, Fundamentals in selected);
    LastPutAppend(market, social, s);
    LastPutAppend(market + social, news, s);
    LastPutAppend(market + social + news, FundamentalsEffects(c), s);
    ReportPut(c, MarketReport, MarketAnalyst, SocialAnalyst, Social in selected, s);
    ReportPut(c, SentimentReport, SocialAnalyst, NewsAnalyst, News in selected, s);
    ReportPut(c, NewsReport, NewsAnalyst, FundamentalsAnalyst, Fundamentals in selected, s);
    FundamentalsPut(c, s);
  }

  /** The last voice of the risk debate that speaks, in the order risky, safe, neutral, manager. */
  function LastVoice(r: Risk): Option<string> {
    if r.judgeDecision != "" then Some("### Portfolio Manager Decision\n" + r.judgeDecision)
    else if r.neutral != "" then Some("### Neutral Analyst Analysis\n" + r.neutral)
    else if r.safe != "" then Some("### Safe Analyst Analysis\n" + r.safe)
    else if r.risky != "" then Some("### Risky Analyst Analysis\n" + r.risky)
    else None
  }

  lemma ManagerHead()
    ensures "### " + RiskName(PortfolioManager) + " Decision\n" == "### Portfolio Manager Decision\n"
  {
  }

  lemma NeutralHead()
    ensures "### " + RiskName(NeutralAnalyst) + " Analysis\n" == "### Neutral Analyst Analysis\n"
  {
  }

  lemma SafeHead()
    ensures "### " + RiskName(SafeAnalyst) + " Analysis\n" == "### Safe Analyst Analysis\n"
  {
  }

  lemma RiskyHead()
    ensures "### " + RiskName(RiskyAnalyst) + " Analysis\n" == "### Risky Analyst Analysis\n"
  {
  }

  lemma RiskDebatePut(c: Chunk, s: Section)
    ensures LastPut(RiskDebateEffects(c), s) ==
            if s == FinalTradeDecision && LastVoice(c.risk).Some? then Some(LastVoice(c.risk)) else None
  {
    ManagerHead();
    NeutralHead();
    SafeHead();
    RiskyHead();
    var risky := RiskEffects(RiskyAnalyst, c.risk.risky, " Analysis\n");
    var safe := RiskEffects(SafeAnalyst, c.risk.safe, " Analysis\n");
    var neutral := RiskEffects(NeutralAnalyst, c.risk.neutral, " Analysis\n");
    var judge := RiskEffects(PortfolioManager, c.risk.judgeDecision, " Decision\n");
    SplitPut(risky, safe, neutral, judge, RiskDone(c), s);
    RiskPut(RiskyAnalyst, c.risk.risky, " Analysis\n", s);
    RiskPut(SafeAnalyst, c.risk.safe, " Analysis\n", s);
    RiskPut(NeutralAnalyst, c.risk.neutral, " Analysis\n", s);
    RiskPut(PortfolioManager, c.risk.judgeDecision, " Decision\n", s);
    NothingPut(RiskDone(c), s);
  }

  lemma DebateOnlyPlan(c: Chunk)
    ensures OnlyPlan(DebateEffects(c))
  {
    assert OnlyPlan(Team(InProgress)) && OnlyPlan(Team(Completed));
    assert OnlyPlan(BullEffects(c)) && OnlyPlan(BearEffects(c)) && OnlyPlan(ManagerEffects(c));
  }

  predicate NoExtend(effects: seq<Effect>) {
    forall i :: 0 <= i < |effects| ==> !effects[i].Extend?
  }

  lemma {:induction false} CallsExtendNothing(calls: seq<ToolCall>)
    ensures NoExtend(CallEffects(calls))
    decreases |calls|
  {
    if calls != [] {
      CallsExtendNothing(calls[..|calls| - 1]);
    }
  }

  lemma ReportExtendsNothing(c: Chunk, section: Section, agent: Agent, next: Agent, nextSelected: bool)
    ensures NoExtend(ReportEffects(c, section, agent, next, nextSelected))
  {
  }

  lemma AnalystsExtendNothing(c: Chunk, selected: seq<Analyst>)
    ensures NoExtend(AnalystEffects(c, selected))
  {
    ReportExtendsNothing(c, MarketReport, MarketAnalyst, SocialAnalyst, Social in selected);
    ReportExtendsNothing(c, SentimentReport, SocialAnalyst, NewsAnalyst, News in selected);
    ReportExtendsNothing(c, NewsReport, NewsAnalyst, FundamentalsAnalyst, Fundamentals in selected);
    assert NoExtend(FundamentalsEffects(c));
  }

  lemma VoiceExtendsNothing(agent: Agent, response: string, kind: string)
    ensures NoExtend(RiskEffects(agent, response, kind))
  {
  }

  lemma RiskExtendsNothing(c: Chunk)
    ensures NoExtend(RiskDebateEffects(c)) && NoExtend(TraderEffects(c))
  {
    VoiceExtendsNothing(RiskyAnalyst, c.risk.risky, " Analysis\n");
    VoiceExtendsNothing(SafeAnalyst, c.risk.safe, " Analysis\n");
    VoiceExtendsNothing(NeutralAnalyst, c.risk.neutral, " Analysis\n");
    VoiceExtendsNothing(PortfolioManager, c.risk.judgeDecision, " Decision\n");
    assert NoExtend(RiskDone(c));
  }

  lemma FiveNotExtended(a: seq<Effect>, b: seq<Effect>, c: seq<Effect>, d: seq<Effect>, e: seq<Effect>, s: Section)
    requires NoExtend(a) && NoExtend(b) && OnlyPlan(c) && NoExtend(d) && NoExtend(e) && s != InvestmentPlan
    ensures NotExtended(a + b + c + d + e, s)
  {
  }

  /** The text that a chunk with messages gives a section other than the plan, if it does. */
  function NewText(c: Chunk, s: Section): Option<Option<string>> {
    if s == FinalTradeDecision then (if LastVoice(c.risk).Some? then Some(LastVoice(c.risk)) else None)
    else if (FromAnalyst(s) || s == TraderInvestmentPlan) && c.Has(s) then Some(c.reports[s])
    else None
  }

  lemma ChunkPut(c: Chunk, selected: seq<Analyst>, s: Section)
    requires c.messages != [] && s != InvestmentPlan
    ensures LastPut(Effects(c, selected), s) == NewText(c, s)
  {
    var said := MessageEffects(c.messages[|c.messages| - 1]);
    MessagePut(c.messages[|c.messages| - 1], s);
    SplitPut(said, AnalystEffects(c, selected), DebateEffects(c), TraderEffects(c), RiskDebateEffects(c), s);
    AnalystsPut(c, selected, s);
    DebateOnlyPlan(c);
    OnlyPlanPut(DebateEffects(c), s);
    TraderPut(c, s);
    RiskDebatePut(c, s);
  }

  lemma ChunkExtendsPlan(c: Chunk, selected: seq<Analyst>, s: Section)
    requires c.messages != [] && s != InvestmentPlan
    ensures NotExtended(Effects(c, selected), s)
  {
    var m := c.messages[|c.messages| - 1];
    CallsExtendNothing(m.toolCalls);
    AnalystsExtendNothing(c, selected);
    DebateOnlyPlan(c);
    RiskExtendsNothing(c);
    FiveNotExtended(MessageEffects(m), AnalystEffects(c, selected), DebateEffects(c), TraderEffects(c),
                    RiskDebateEffects(c), s);
  }

  /** What a section other than the plan holds after a chunk: the chunk's own report or the last voice of
      its risk debate, and else what it held before. */
  lemma SectionAfterChunk(v: Panel, c: Chunk, selected: seq<Analyst>, s: Section)
    requires Declared(s) && s in v.sections && s != InvestmentPlan && c.messages != []
    ensures s in v.DoAll(Effects(c, selected)).sections
    ensures v.DoAll(Effects(c, selected)).sections[s] == Or(Some(v.sections[s]), NewText(c, s)).value
  {
    ChunkPut(c, selected, s);
    ChunkExtendsPlan(c, selected, s);
    SectionAfter(v, Effects(c, selected), s);
  }

  // ---- over a whole stream ----

  function LastPutIn(batches: seq<seq<Effect>>, n: nat, s: Section): Option<Option<string>>
    requires n <= |batches|
  {
    if n == 0 then None else Or(LastPutIn(batches, n - 1, s), LastPut(batches[n - 1], s))
  }

  lemma {:induction false} SectionAfterFold(v: Panel, batches: seq<seq<Effect>>, n: nat, s: Section)
    requires n <= |batches| && Declared(s) && s in v.sections
    requires forall i :: 0 <= i < n ==> NotExtended(batches[i], s)
    ensures s in Fold(v, batches, n).sections
    ensures Fold(v, batches, n).sections[s] == Or(Some(v.sections[s]), LastPutIn(batches, n, s)).value
  {
    if n > 0 {
      SectionAfterFold(v, batches, n - 1, s);
      SectionAfter(Fold(v, batches, n - 1), batches[n - 1], s);
    }
  }

  /** The texts that the chunks of a stream give a section; chunks without messages give none. */
  function NewTexts(chunks: seq<Chunk>, s: Section): (texts: seq<Option<Option<string>>>)
    ensures |texts| == |chunks|
  {
    seq(|chunks|, i requires 0 <= i < |chunks| => if chunks[i].messages == [] then None else NewText(chunks[i], s))
  }

  lemma {:induction false} LatestOfPuts(
      batches: seq<seq<Effect>>, texts: seq<Option<Option<string>>>, n: nat, s: Section)
    requires n <= |batches| == |texts|
    requires forall i :: 0 <= i < n ==> LastPut(batches[i], s) == texts[i]
    ensures LastPutIn(batches, n, s) == Latest(texts, n)
  {
    if n > 0 {
      LatestOfPuts(batches, texts, n - 1, s);
    }
  }

  lemma BatchPut(c: Chunk, selected: seq<Analyst>, s: Section)
    requires s != InvestmentPlan
    ensures NotExtended(Effects(c, selected), s)
    ensures LastPut(Effects(c, selected), s) == if c.messages == [] then None else NewText(c, s)
  {
    if c.messages != [] {
      ChunkPut(c, selected, s);
      ChunkExtendsPlan(c, selected, s);
    }
  }

  /** At every chunk boundary a section other than the plan holds the text of the latest chunk that has
      one for it, or else what it held at the start. */
  lemma SectionAtBoundary(v: Panel, chunks: seq<Chunk>, selected: seq<Analyst>, n: nat, s: Section)
    requires n <= |chunks| && Declared(s) && s in v.sections && s != InvestmentPlan
    ensures s in Through(v, chunks, selected, n).sections
    ensures Through(v, chunks, selected, n).sections[s] == Or(Some(v.sections[s]), Latest(NewTexts(chunks, s), n)).value
  {
    var batches, texts := Batches(chunks, selected), NewTexts(chunks, s);
    forall i | 0 <= i < n ensures NotExtended(batches[i], s) && LastPut(batches[i], s) == texts[i] {
      BatchPut(chunks[i], selected, s);
    }
    SectionAfterFold(v, batches, n, s);
    LatestOfPuts(batches, texts, n, s);
  }
}
