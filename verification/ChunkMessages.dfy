/** cli/main.py, run_analysis: which messages and tool calls a stream leaves in the buffer, and which
    agent it shows as the current one. */
module ChunkMessages {
  import opened Common
  import opened Reports
  import opened MessageBuffer
  import opened AnalysisStream

  // ---- what a chunk should add, told from its fields ----

  /** A voice that is silent adds no message. */
  function Spoken(prefix: string, text: string): seq<Line> {
    if text == "" then [] else [Line("Reasoning", prefix + text)]
  }

  /** The last message of the chunk, then the voices of the two debates that speak. */
  function LinesOf(c: Chunk): seq<Line> {
    if c.messages == [] then []
    else
      var last := c.messages[|c.messages| - 1];
      [Line(if last.hasContent then "Reasoning" else "System", last.content)]
      + Spoken("", LastLine(c.debate.bullHistory))
      + Spoken("", LastLine(c.debate.bearHistory))
      + Spoken("Research Manager: ", c.debate.judgeDecision)
      + Spoken("Risky Analyst: ", c.risk.risky)
      + Spoken("Safe Analyst: ", c.risk.safe)
      + Spoken("Neutral Analyst: ", c.risk.neutral)
      + Spoken("Portfolio Manager: ", c.risk.judgeDecision)
  }

  /** The tool calls of its last message. */
  function CallsOf(c: Chunk): seq<ToolCall> {
    if c.messages == [] then [] else c.messages[|c.messages| - 1].toolCalls
  }

  function AllLines(chunks: seq<Chunk>): (lines: seq<seq<Line>>)
    ensures |lines| == |chunks|
  {
    seq(|chunks|, i requires 0 <= i < |chunks| => LinesOf(chunks[i]))
  }

  function AllCalls(chunks: seq<Chunk>): (calls: seq<seq<ToolCall>>)
    ensures |calls| == |chunks|
  {
    seq(|chunks|, i requires 0 <= i < |chunks| => CallsOf(chunks[i]))
  }

  /** The first `n` lists, one behind the other. */
  function Flat<T>(lists: seq<seq<T>>, n: nat): seq<T>
    requires n <= |lists|
  {
    if n == 0 then [] else Flat(lists, n - 1) + lists[n - 1]
  }

  // ---- what its effects add ----

  function Says(effects: seq<Effect>): seq<Line>
    decreases |effects|
  {
    if effects == [] then []
    else
      var last := effects[|effects| - 1];
      Says(effects[..|effects| - 1]) + if last.Say? then [Line(last.kind, last.text)] else []
  }

  function Calls(effects: seq<Effect>): seq<ToolCall>
    decreases |effects|
  {
    if effects == [] then []
    else
      var last := effects[|effects| - 1];
      Calls(effects[..|effects| - 1]) + if last.Call? then [ToolCall(last.name, last.args)] else []
  }

  lemma {:induction false} Added(v: Panel, effects: seq<Effect>)
    ensures v.DoAll(effects).lines == v.lines + Says(effects)
    ensures v.DoAll(effects).calls == v.calls + Calls(effects)
    decreases |effects|
  {
    if effects != [] {
      Added(v, effects[..|effects| - 1]);
    }
  }

  lemma {:induction false} SaysAppend(first: seq<Effect>, second: seq<Effect>)
    ensures Says(first + second) == Says(first) + Says(second)
    decreases |second|
  {
    if second == [] {
      assert first + second == first;
    } else {
      var front := second[..|second| - 1];
      SaysAppend(first, front);
      assert (first + second)[..|first + second| - 1] == first + front;
    }
  }

  lemma {:induction false} CallsAppend(first: seq<Effect>, second: seq<Effect>)
    ensures Calls(first + second) == Calls(first) + Calls(second)
    decreases |second|
  {
    if second == [] {
      assert first + second == first;
    } else {
      var front := second[..|second| - 1];
      CallsAppend(first, front);
      assert (first + second)[..|first + second| - 1] == first + front;
    }
  }

  predicate Quiet(effects: seq<Effect>) {
    forall i :: 0 <= i < |effects| ==> !effects[i].Say?
  }

  predicate NoCall(effects: seq<Effect>) {
    forall i :: 0 <= i < |effects| ==> !effects[i].Call?
  }

  lemma {:induction false} QuietSays(effects: seq<Effect>)
    requires Quiet(effects)
    ensures Says(effects) == []
    decreases |effects|
  {
    if effects != [] {
      QuietSays(effects[..|effects| - 1]);
    }
  }

  lemma {:induction false} NoCallCalls(effects: seq<Effect>)
    requires NoCall(effects)
    ensures Calls(effects) == []
    decreases |effects|
  {
    if effects != [] {
      NoCallCalls(effects[..|effects| - 1]);
    }
  }

  // ---- piece by piece ----

  lemma {:induction false} CallEffectsAdd(calls: seq<ToolCall>)
    ensures Says(CallEffects(calls)) == [] && Calls(CallEffects(calls)) == calls
    decreases |calls|
  {
    if calls != [] {
      var front := calls[..|calls| - 1];
      CallEffectsAdd(front);
      assert CallEffects(calls)[..|CallEffects(calls)| - 1] == CallEffects(front);
      assert calls == front + [calls[|calls| - 1]];
    }
  }

  lemma MessageAdds(m: Message)
    ensures Says(MessageEffects(m)) == [Line(if m.hasContent then "Reasoning" else "System", m.content)]
    ensures Calls(MessageEffects(m)) == m.toolCalls
  {
    var say := [Say(if m.hasContent then "Reasoning" else "System", m.content)];
    assert say[..0] == [];
    CallEffectsAdd(m.toolCalls);
    SaysAppend(say, CallEffects(m.toolCalls));
    CallsAppend(say, CallEffects(m.toolCalls));
  }

  lemma AnalystsQuiet(c: Chunk, selected: seq<Analyst>)
    ensures Quiet(AnalystEffects(c, selected)) && NoCall(AnalystEffects(c, selected))
  {
    ReportQuiet(c, MarketReport, MarketAnalyst, SocialAnalyst, Social in selected);
    ReportQuiet(c, SentimentReport, SocialAnalyst, NewsAnalyst, News in selected);
    ReportQuiet(c, NewsReport, NewsAnalyst, FundamentalsAnalyst, Fundamentals in selected);
    assert Quiet(FundamentalsEffects(c)) && NoCall(FundamentalsEffects(c));
  }

  lemma ReportQuiet(c: Chunk, section: Section, agent: Agent, next: Agent, nextSelected: bool)
    ensures Quiet(ReportEffects(c, section, agent, next, nextSelected))
    ensures NoCall(ReportEffects(c, section, agent, next, nextSelected))
  {
  }

  /** Between quiet effects one message is said. */
  lemma SaidBetween(before: seq<Effect>, say: Effect, after: seq<Effect>)
    requires Quiet(before) && say.Say? && Quiet(after)
    ensures Says(before + [say] + after) == [Line(say.kind, say.text)]
  {
    QuietSays(before);
    QuietSays(after);
    assert (before + [say])[..|before|] == before;
    SaysAppend(before + [say], after);
  }

  lemma BullSays(c: Chunk)
    ensures Says(BullEffects(c)) == Spoken("", LastLine(c.debate.bullHistory)) && NoCall(BullEffects(c))
  {
    TurnSays(LastLine(c.debate.bullHistory), Put(InvestmentPlan, Some(BullBlock(LastLine(c.debate.bullHistory)))));
    assert LastLine("") == "" by { LastLineEmptyIff(""); }
  }

  lemma BearSays(c: Chunk)
    ensures Says(BearEffects(c)) == Spoken("", LastLine(c.debate.bearHistory)) && NoCall(BearEffects(c))
  {
    TurnSays(LastLine(c.debate.bearHistory), Extend(InvestmentPlan, BearBlock(LastLine(c.debate.bearHistory))));
    assert LastLine("") == "" by { LastLineEmptyIff(""); }
  }

  lemma TurnSays(text: string, write: Effect)
    requires write.Put? || write.Extend?
    ensures Says(Team(InProgress) + [Say("Reasoning", text), write]) == [Line("Reasoning", text)]
    ensures Says(Team(InProgress) + []) == []
    ensures "" + text == text
  {
    var say := Say("Reasoning", text);
    SaidBetween(Team(InProgress), say, [write]);
    assert Team(InProgress) + [say] + [write] == Team(InProgress) + [say, write];
    QuietSays(Team(InProgress) + []);
  }

  lemma ManagerSays(c: Chunk)
    ensures Says(ManagerEffects(c)) == Spoken("Research Manager: ", c.debate.judgeDecision) && NoCall(ManagerEffects(c))
  {
    var decision := c.debate.judgeDecision;
    var say, write := Say("Reasoning", "Research Manager: " + decision), Extend(InvestmentPlan, ManagerBlock(decision));
    var risky := [SetStatus(RiskyAnalyst, InProgress)];
    SaidBetween(Team(InProgress), say, [write] + Team(Completed) + risky);
    assert Team(InProgress) + [say] + ([write] + Team(Completed) + risky)
        == Team(InProgress) + [say, write] + Team(Completed) + risky;
  }

  lemma VoiceSays(agent: Agent, response: string, kind: string)
    ensures Says(RiskEffects(agent, response, kind)) == Spoken(RiskName(agent) + ": ", response)
    ensures NoCall(RiskEffects(agent, response, kind))
  {
    var status, say := SetStatus(agent, InProgress), Say("Reasoning", RiskName(agent) + ": " + response);
    var write := Put(FinalTradeDecision, Some("### " + RiskName(agent) + kind + response));
    SaidBetween([status], say, [write]);
    assert [status] + [say] + [write] == [status, say, write];
  }

  lemma DebateSays(c: Chunk)
    ensures Says(DebateEffects(c)) ==
            Spoken("", LastLine(c.debate.bullHistory)) + Spoken("", LastLine(c.debate.bearHistory))
            + Spoken("Research Manager: ", c.debate.judgeDecision)
    ensures NoCall(DebateEffects(c))
  {
    BullSays(c);
    BearSays(c);
    ManagerSays(c);
    SaysAppend(BullEffects(c), BearEffects(c));
    SaysAppend(BullEffects(c) + BearEffects(c), ManagerEffects(c));
  }

  lemma RiskSays(c: Chunk)
    ensures Says(RiskDebateEffects(c)) ==
            Spoken("Risky Analyst: ", c.risk.risky) + Spoken("Safe Analyst: ", c.risk.safe)
            + Spoken("Neutral Analyst: ", c.risk.neutral) + Spoken("Portfolio Manager: ", c.risk.judgeDecision)
    ensures NoCall(RiskDebateEffects(c))
  {
    var risky := RiskEffects(RiskyAnalyst, c.risk.risky, " Analysis\n");
    var safe := RiskEffects(SafeAnalyst, c.risk.safe, " Analysis\n");
    var neutral := RiskEffects(NeutralAnalyst, c.risk.neutral, " Analysis\n");
    var judge := RiskEffects(PortfolioManager, c.risk.judgeDecision, " Decision\n");
    VoiceSays(RiskyAnalyst, c.risk.risky, " Analysis\n");
    VoiceSays(SafeAnalyst, c.risk.safe, " Analysis\n");
    VoiceSays(NeutralAnalyst, c.risk.neutral, " Analysis\n");
    VoiceSays(PortfolioManager, c.risk.judgeDecision, " Decision\n");
    VoicesSay(risky, safe, neutral, judge, RiskDone(c));
    VoiceNames();
  }

  lemma VoiceNames()
    ensures RiskName(RiskyAnalyst) + ": " == "Risky Analyst: " && RiskName(SafeAnalyst) + ": " == "Safe Analyst: "
    ensures RiskName(NeutralAnalyst) + ": " == "Neutral Analyst: "
    ensures RiskName(PortfolioManager) + ": " == "Portfolio Manager: "
  {
  }

  lemma VoicesSay(a: seq<Effect>, b: seq<Effect>, c: seq<Effect>, d: seq<Effect>, done: seq<Effect>)
    requires Quiet(done)
    ensures Says(a + b + c + d + done) == Says(a) + Says(b) + Says(c) + Says(d)
  {
    QuietSays(done);
    SaysAppend(a, b);
    SaysAppend(a + b, c);
    SaysAppend(a + b + c, d);
    SaysAppend(a + b + c + d, done);
  }

  lemma QuietAddsNothing(first: seq<Effect>, second: seq<Effect>)
    requires Quiet(second)
    ensures Says(first + second) == Says(first)
  {
    QuietSays(second);
    SaysAppend(first, second);
  }

  lemma PiecesSay(said: seq<Effect>, analysts: seq<Effect>, debate: seq<Effect>, trader: seq<Effect>, risk: seq<Effect>)
    requires Quiet(analysts) && Quiet(trader)
    ensures Says(said + analysts + debate + trader + risk) == Says(said) + Says(debate) + Says(risk)
  {
    QuietAddsNothing(said, analysts);
    SaysAppend(said + analysts, debate);
    QuietAddsNothing(said + analysts + debate, trader);
    SaysAppend(said + analysts + debate + trader, risk);
  }

  lemma PiecesCall(said: seq<Effect>, analysts: seq<Effect>, debate: seq<Effect>, trader: seq<Effect>, risk: seq<Effect>)
    requires NoCall(analysts) && NoCall(debate) && NoCall(trader) && NoCall(risk)
    ensures Calls(said + analysts + debate + trader + risk) == Calls(said)
  {
    NoCallCalls(analysts);
    NoCallCalls(debate);
    NoCallCalls(trader);
    NoCallCalls(risk);
    CallsAppend(said, analysts);
    CallsAppend(said + analysts, debate);
    CallsAppend(said + analysts + debate, trader);
    CallsAppend(said + analysts + debate + trader, risk);
  }

  lemma Regroup(message: seq<Line>, bull: seq<Line>, bear: seq<Line>, manager: seq<Line>,
                risky: seq<Line>, safe: seq<Line>, neutral: seq<Line>, judge: seq<Line>)
    ensures message + (bull + bear + manager) + (risky + safe + neutral + judge)
         == message + bull + bear + manager + risky + safe + neutral + judge
  {
    JoinThree(message, bull, bear, manager);
    JoinThree(message + bull + bear + manager, risky, safe, neutral);
    Join(message + bull + bear + manager, risky + safe + neutral, judge);
  }

  lemma Join<T>(a: seq<T>, b: seq<T>, c: seq<T>)
    ensures a + (b + c) == a + b + c
  {
  }

  lemma JoinThree<T>(a: seq<T>, b: seq<T>, c: seq<T>, d: seq<T>)
    ensures a + (b + c + d) == a + b + c + d
  {
    Join(a, b + c, d);
    Join(a, b, c);
  }

  lemma LinesGrouped(c: Chunk)
    requires c.messages != []
    ensures var last := c.messages[|c.messages| - 1];
            LinesOf(c) ==
            [Line(if last.hasContent then "Reasoning" else "System", last.content)]
            + (Spoken("", LastLine(c.debate.bullHistory)) + Spoken("", LastLine(c.debate.bearHistory))
               + Spoken("Research Manager: ", c.debate.judgeDecision))
            + (Spoken("Risky Analyst: ", c.risk.risky) + Spoken("Safe Analyst: ", c.risk.safe)
               + Spoken("Neutral Analyst: ", c.risk.neutral) + Spoken("Portfolio Manager: ", c.risk.judgeDecision))
  {
    var last := c.messages[|c.messages| - 1];
    Regroup([Line(if last.hasContent then "Reasoning" else "System", last.content)],
            Spoken("", LastLine(c.debate.bullHistory)), Spoken("", LastLine(c.debate.bearHistory)),
            Spoken("Research Manager: ", c.debate.judgeDecision), Spoken("Risky Analyst: ", c.risk.risky),
            Spoken("Safe Analyst: ", c.risk.safe), Spoken("Neutral Analyst: ", c.risk.neutral),
            Spoken("Portfolio Manager: ", c.risk.judgeDecision));
  }

  lemma TraderQuiet(c: Chunk)
    ensures Quiet(TraderEffects(c)) && NoCall(TraderEffects(c))
  {
  }

  /** The parts of a chunk's effects, and what they say. */
  lemma Parts(c: Chunk, selected: seq<Analyst>)
    returns (said: seq<Effect>, analysts: seq<Effect>, debate: seq<Effect>, trader: seq<Effect>, risk: seq<Effect>)
    requires c.messages != []
    ensures Effects(c, selected) == said + analysts + debate + trader + risk
    ensures Quiet(analysts) && Quiet(trader)
    ensures NoCall(analysts) && NoCall(debate) && NoCall(trader) && NoCall(risk)
    ensures Says(said) + Says(debate) + Says(risk) == LinesOf(c) && Calls(said) == CallsOf(c)
  {
    said, analysts := MessageEffects(c.messages[|c.messages| - 1]), AnalystEffects(c, selected);
    debate, trader, risk := DebateEffects(c), TraderEffects(c), RiskDebateEffects(c);
    MessageAdds(c.messages[|c.messages| - 1]);
    AnalystsQuiet(c, selected);
    TraderQuiet(c);
    DebateSays(c);
    RiskSays(c);
    LinesGrouped(c);
  }

  /** What a chunk adds: its last message with its tool calls, then the voices that speak, in order. */
  lemma ChunkAdds(c: Chunk, selected: seq<Analyst>)
    ensures Says(Effects(c, selected)) == LinesOf(c)
    ensures Calls(Effects(c, selected)) == CallsOf(c)
  {
    if c.messages != [] {
      var said, analysts, debate, trader, risk := Parts(c, selected);
      PiecesSay(said, analysts, debate, trader, risk);
      PiecesCall(said, analysts, debate, trader, risk);
    }
  }

  // ---- over a whole stream ----

  lemma {:induction false} FoldAdds(
      v: Panel, batches: seq<seq<Effect>>, lines: seq<seq<Line>>, calls: seq<seq<ToolCall>>, n: nat)
    requires n <= |batches| == |lines| == |calls|
    requires forall i :: 0 <= i < n ==> Says(batches[i]) == lines[i] && Calls(batches[i]) == calls[i]
    ensures Fold(v, batches, n).lines == v.lines + Flat(lines, n)
    ensures Fold(v, batches, n).calls == v.calls + Flat(calls, n)
  {
    if n > 0 {
      FoldAdds(v, batches, lines, calls, n - 1);
      Added(Fold(v, batches, n - 1), batches[n - 1]);
      Join(v.lines, Flat(lines, n - 1), lines[n - 1]);
      Join(v.calls, Flat(calls, n - 1), calls[n - 1]);
    }
  }

  /** At every chunk boundary: what was there at the start, then for each chunk with messages its last
      message and the voices that spoke; and the tool calls of those last messages. */
  lemma MessagesAtBoundary(v: Panel, chunks: seq<Chunk>, selected: seq<Analyst>, n: nat)
    requires n <= |chunks|
    ensures Through(v, chunks, selected, n).lines == v.lines + Flat(AllLines(chunks), n)
    ensures Through(v, chunks, selected, n).calls == v.calls + Flat(AllCalls(chunks), n)
  {
    var batches, lines, calls := Batches(chunks, selected), AllLines(chunks), AllCalls(chunks);
    forall i | 0 <= i < n ensures Says(batches[i]) == lines[i] && Calls(batches[i]) == calls[i] {
      ChunkAdds(chunks[i], selected);
    }
    FoldAdds(v, batches, lines, calls, n);
  }
}
