/** cli/main.py, run_analysis: how the section `investment_plan` is put together from the debate. */
module InvestmentPlans {
  import opened Common
  import opened Reports
  import opened MessageBuffer
  import opened AnalysisStream

  /** What one effect does to the plan. */
  function Edited(plan: Option<string>, e: Effect): Option<string> {
    match e
    case Put(section, content) => if section == InvestmentPlan then content else plan
    case Extend(section, addition) => if section == InvestmentPlan then Extended(plan, addition) else plan
    case _ => plan
  }

  function Extended(plan: Option<string>, addition: string): Option<string> {
    Some(Formatted(plan) + "\n\n" + addition)
  }

  function AllEdited(plan: Option<string>, effects: seq<Effect>): Option<string>
    decreases |effects|
  {
    if effects == [] then plan
    else Edited(AllEdited(plan, effects[..|effects| - 1]), effects[|effects| - 1])
  }

  lemma {:induction false} EditedAppend(plan: Option<string>, first: seq<Effect>, second: seq<Effect>)
    ensures AllEdited(plan, first + second) == AllEdited(AllEdited(plan, first), second)
    decreases |second|
  {
    if second == [] {
      assert first + second == first;
    } else {
      var front := second[..|second| - 1];
      EditedAppend(plan, first, front);
      assert (first + second)[..|first + second| - 1] == first + front;
    }
  }

  lemma {:induction false} PlanAfterEffects(v: Panel, effects: seq<Effect>)
    requires InvestmentPlan in v.sections
    ensures InvestmentPlan in v.DoAll(effects).sections
    ensures v.DoAll(effects).sections[InvestmentPlan] == AllEdited(v.sections[InvestmentPlan], effects)
    decreases |effects|
  {
    if effects != [] {
      PlanAfterEffects(v, effects[..|effects| - 1]);
    }
  }

  predicate Concerned(e: Effect) {
    (e.Put? || e.Extend?) && e.section == InvestmentPlan
  }

  predicate Silent(effects: seq<Effect>) {
    forall i :: 0 <= i < |effects| ==> !Concerned(effects[i])
  }

  lemma {:induction false} SilentKeeps(plan: Option<string>, effects: seq<Effect>)
    requires Silent(effects)
    ensures AllEdited(plan, effects) == plan
    decreases |effects|
  {
    if effects != [] {
      SilentKeeps(plan, effects[..|effects| - 1]);
    }
  }

  /** The plan after a chunk with messages, block by block. */
  function PlanAfter(plan: Option<string>, c: Chunk): Option<string> {
    var bull, bear := LastLine(c.debate.bullHistory), LastLine(c.debate.bearHistory);
    var withBull := if bull == "" then plan else Some(BullBlock(bull));
    var withBear := if bear == "" then withBull else Extended(withBull, BearBlock(bear));
    if c.debate.judgeDecision == "" then withBear
    else Extended(withBear, ManagerBlock(c.debate.judgeDecision))
  }

  lemma {:induction false} CallsSilent(calls: seq<ToolCall>)
    ensures Silent(CallEffects(calls))
    decreases |calls|
  {
    if calls != [] {
      CallsSilent(calls[..|calls| - 1]);
    }
  }


  lemma ReportSilent(c: Chunk, section: Section, agent: Agent, next: Agent, nextSelected: bool)
    requires section != InvestmentPlan
    ensures Silent(ReportEffects(c, section, agent, next, nextSelected))
  {
  }

  lemma AnalystsSilent(c: Chunk, selected: seq<Analyst>)
    ensures Silent(AnalystEffects(c, selected))
  {
    ReportSilent(c, MarketReport, MarketAnalyst, SocialAnalyst, Social in selected);
    ReportSilent(c, SentimentReport, SocialAnalyst, NewsAnalyst, News in selected);
    ReportSilent(c, NewsReport, NewsAnalyst, FundamentalsAnalyst, Fundamentals in selected);
    assert Silent(FundamentalsEffects(c));
  }

  lemma VoiceSilent(agent: Agent, response: string, kind: string)
    ensures Silent(RiskEffects(agent, response, kind))
  {
  }

  lemma RiskSilent(c: Chunk)
    ensures Silent(RiskDebateEffects(c))
  {
    VoiceSilent(RiskyAnalyst, c.risk.risky, " Analysis\n");
    VoiceSilent(SafeAnalyst, c.risk.safe, " Analysis\n");
    VoiceSilent(NeutralAnalyst, c.risk.neutral, " Analysis\n");
    VoiceSilent(PortfolioManager, c.risk.judgeDecision, " Decision\n");
    assert Silent(RiskDone(c));
  }

  lemma TeamSays(plan: Option<string>, say: Effect, edit: Effect)
    requires !Concerned(say)
    ensures AllEdited(plan, Team(InProgress)) == plan
    ensures AllEdited(plan, Team(InProgress) + [say, edit]) == Edited(plan, edit)
  {
    SilentKeeps(plan, Team(InProgress));
    assert Silent(Team(InProgress) + [say]);
    SilentKeeps(plan, Team(InProgress) + [say]);
    var all := Team(InProgress) + [say, edit];
    assert all[..|all| - 1] == Team(InProgress) + [say];
  }

  lemma BullEdits(plan: Option<string>, c: Chunk)
    ensures var bull := LastLine(c.debate.bullHistory);
            AllEdited(plan, BullEffects(c)) == if bull == "" then plan else Some(BullBlock(bull))
  {
    if c.debate.bullHistory != "" {
      var bull := LastLine(c.debate.bullHistory);
      TeamSays(plan, Say("Reasoning", bull), Put(InvestmentPlan, Some(BullBlock(bull))));
      assert Team(InProgress) + [] == Team(InProgress);
    }
  }

  lemma BearEdits(plan: Option<string>, c: Chunk)
    ensures var bear := LastLine(c.debate.bearHistory);
            AllEdited(plan, BearEffects(c)) == if bear == "" then plan else Extended(plan, BearBlock(bear))
  {
    if c.debate.bearHistory != "" {
      var bear := LastLine(c.debate.bearHistory);
      TeamSays(plan, Say("Reasoning", bear), Extend(InvestmentPlan, BearBlock(bear)));
      assert Team(InProgress) + [] == Team(InProgress);
    }
  }

  lemma ManagerEdits(plan: Option<string>, c: Chunk)
    ensures var decision := c.debate.judgeDecision;
            AllEdited(plan, ManagerEffects(c)) == if decision == "" then plan else Extended(plan, ManagerBlock(decision))
  {
    var decision := c.debate.judgeDecision;
    if decision != "" {
      var say, write := Say("Reasoning", "Research Manager: " + decision), Extend(InvestmentPlan, ManagerBlock(decision));
      TeamSays(plan, say, write);
      var head, tail := Team(InProgress) + [say, write], Team(Completed) + [SetStatus(RiskyAnalyst, InProgress)];
      assert ManagerEffects(c) == head + tail;
      EditedAppend(plan, head, tail);
      SilentKeeps(AllEdited(plan, head), tail);
    }
  }

  lemma DebateEdits(plan: Option<string>, c: Chunk)
    ensures AllEdited(plan, DebateEffects(c)) == PlanAfter(plan, c)
  {
    BullEdits(plan, c);
    var withBull := AllEdited(plan, BullEffects(c));
    BearEdits(withBull, c);
    ManagerEdits(AllEdited(withBull, BearEffects(c)), c);
    EditedAppend(plan, BullEffects(c), BearEffects(c));
    EditedAppend(plan, BullEffects(c) + BearEffects(c), ManagerEffects(c));
  }

  lemma SilentAround(plan: Option<string>, before: seq<Effect>, effects: seq<Effect>, after: seq<Effect>)
    requires Silent(before) && Silent(after)
    ensures AllEdited(plan, before + effects + after) == AllEdited(plan, effects)
  {
    SilentKeeps(plan, before);
    EditedAppend(plan, before, effects);
    EditedAppend(plan, before + effects, after);
    SilentKeeps(AllEdited(plan, before + effects), after);
  }

  lemma MessageSilent(message: Message)
    ensures Silent(MessageEffects(message))
  {
    CallsSilent(message.toolCalls);
  }

  lemma TraderSilent(c: Chunk)
    ensures Silent(TraderEffects(c))
  {
  }

  lemma BothSilent(first: seq<Effect>, second: seq<Effect>)
    requires Silent(first) && Silent(second)
    ensures Silent(first + second)
  {
  }

  lemma SilentParts(c: Chunk, message: Message, selected: seq<Analyst>)
    ensures Silent(MessageEffects(message) + AnalystEffects(c, selected))
    ensures Silent(TraderEffects(c) + RiskDebateEffects(c))
  {
    MessageSilent(message);
    AnalystsSilent(c, selected);
    BothSilent(MessageEffects(message), AnalystEffects(c, selected));
    TraderSilent(c);
    RiskSilent(c);
    BothSilent(TraderEffects(c), RiskDebateEffects(c));
  }

  /** Only the debate writes the plan. */
  lemma ChunkEdits(plan: Option<string>, c: Chunk, selected: seq<Analyst>)
    requires c.messages != []
    ensures AllEdited(plan, Effects(c, selected)) == PlanAfter(plan, c)
  {
    var message := c.messages[|c.messages| - 1];
    var before, after := MessageEffects(message) + AnalystEffects(c, selected), TraderEffects(c) + RiskDebateEffects(c);
    SilentParts(c, message, selected);
    SilentAround(plan, before, DebateEffects(c), after);
    Regroup(before, DebateEffects(c), TraderEffects(c), RiskDebateEffects(c));
    DebateEdits(plan, c);
  }

  lemma Regroup(a: seq<Effect>, b: seq<Effect>, c: seq<Effect>, d: seq<Effect>)
    ensures a + b + c + d == a + b + (c + d)
  {
  }

  /** What `investment_plan` holds after a chunk. */
  lemma PlanAfterChunk(v: Panel, c: Chunk, selected: seq<Analyst>)
    requires InvestmentPlan in v.sections
    ensures var w := v.DoAll(Effects(c, selected));
            && InvestmentPlan in w.sections
            && w.sections[InvestmentPlan] ==
               if c.messages == [] then v.sections[InvestmentPlan] else PlanAfter(v.sections[InvestmentPlan], c)
  {
    PlanAfterEffects(v, Effects(c, selected));
    if c.messages != [] {
      ChunkEdits(v.sections[InvestmentPlan], c, selected);
    }
  }

  // ---- when the plan depends on the past ----

  /** The plan of a chunk whose bull speaks: bull block, then the bear's and the manager's if they speak. */
  function Rebuilt(c: Chunk): string {
    var bear, decision := LastLine(c.debate.bearHistory), c.debate.judgeDecision;
    "### Bull Researcher Analysis\n" + LastLine(c.debate.bullHistory)
    + (if bear == "" then "" else "\n\n" + ("### Bear Researcher Analysis\n" + bear))
    + (if decision == "" then "" else "\n\n" + ("### Research Manager Decision\n" + decision))
  }

  /** What a chunk adds behind the plan when the bull is silent. */
  function Addition(c: Chunk): string {
    var bear, decision := LastLine(c.debate.bearHistory), c.debate.judgeDecision;
    (if bear == "" then "" else "\n\n" + ("### Bear Researcher Analysis\n" + bear))
    + (if decision == "" then "" else "\n\n" + ("### Research Manager Decision\n" + decision))
  }

  /** If the last line of the bull's history is not empty, the plan comes from this chunk alone. */
  lemma PlanIsRebuilt(plan: Option<string>, c: Chunk)
    requires LastLine(c.debate.bullHistory) != ""
    ensures PlanAfter(plan, c) == Some(Rebuilt(c))
  {
    var bear, decision := LastLine(c.debate.bearHistory), c.debate.judgeDecision;
    Assemble(BullBlock(LastLine(c.debate.bullHistory)), BearBlock(bear), ManagerBlock(decision), bear != "", decision != "");
  }

  lemma Assemble(bull: string, bear: string, manager: string, bearSpeaks: bool, managerSpeaks: bool)
    ensures var withBear := if bearSpeaks then Extended(Some(bull), bear) else Some(bull);
            (if managerSpeaks then Extended(withBear, manager) else withBear)
            == Some(bull + (if bearSpeaks then "\n\n" + bear else "") + (if managerSpeaks then "\n\n" + manager else ""))
  {
    var first := bull + (if bearSpeaks then "\n\n" + bear else "");
    assert bearSpeaks ==> bull + "\n\n" + bear == first;
    assert managerSpeaks ==> first + "\n\n" + manager == first + ("\n\n" + manager);
    assert first + "" == first && bull + "" == bull;
  }

  /** If it is empty, the chunk's blocks pile up behind whatever was there. */
  lemma PlanPilesUp(plan: Option<string>, c: Chunk)
    requires LastLine(c.debate.bullHistory) == ""
    ensures Formatted(PlanAfter(plan, c)) == Formatted(plan) + Addition(c)
  {
    var bear, decision := LastLine(c.debate.bearHistory), c.debate.judgeDecision;
    PileOnto(Formatted(plan), BearBlock(bear), ManagerBlock(decision), bear != "", decision != "");
  }

  lemma PileOnto(text: string, bear: string, manager: string, bearSpeaks: bool, managerSpeaks: bool)
    ensures var withBear := if bearSpeaks then text + "\n\n" + bear else text;
            (if managerSpeaks then withBear + "\n\n" + manager else withBear)
            == text + ((if bearSpeaks then "\n\n" + bear else "") + (if managerSpeaks then "\n\n" + manager else ""))
  {
    var added := if bearSpeaks then "\n\n" + bear else "";
    assert (if bearSpeaks then text + "\n\n" + bear else text) == text + added;
    assert managerSpeaks ==> text + added + "\n\n" + manager == text + (added + ("\n\n" + manager));
    assert added + "" == added;
  }

  /** The plan after a chunk depends on the plan before exactly when the bull's last line is empty. */
  lemma IndependentIff(c: Chunk)
    ensures (forall plan, other :: PlanAfter(plan, c) == PlanAfter(other, c)) <==> LastLine(c.debate.bullHistory) != ""
  {
    if LastLine(c.debate.bullHistory) == "" {
      PlanPilesUp(Some(""), c);
      PlanPilesUp(Some("x"), c);
      assert |Formatted(PlanAfter(Some("x"), c))| != |Formatted(PlanAfter(Some(""), c))|;
    } else {
      forall plan, other ensures PlanAfter(plan, c) == PlanAfter(other, c) {
        PlanIsRebuilt(plan, c);
        PlanIsRebuilt(other, c);
      }
    }
  }

  lemma {:induction false} PlanKnown(v: Panel, batches: seq<seq<Effect>>, n: nat)
    requires n <= |batches| && InvestmentPlan in v.sections
    ensures InvestmentPlan in Fold(v, batches, n).sections
  {
    if n > 0 {
      PlanKnown(v, batches, n - 1);
      PlanAfterEffects(Fold(v, batches, n - 1), batches[n - 1]);
    }
  }

  /** Batch `m` sets the plan to `r`, and the ones behind it leave it alone. */
  lemma {:induction false} PlanSince(v: Panel, batches: seq<seq<Effect>>, n: nat, m: nat, r: Option<string>)
    requires m < n <= |batches| && InvestmentPlan in v.sections
    requires forall plan :: AllEdited(plan, batches[m]) == r
    requires forall i :: m < i < n ==> batches[i] == []
    ensures InvestmentPlan in Fold(v, batches, n).sections && Fold(v, batches, n).sections[InvestmentPlan] == r
  {
    if m == n - 1 {
      PlanKnown(v, batches, m);
      PlanAfterEffects(Fold(v, batches, m), batches[m]);
    } else {
      PlanSince(v, batches, n - 1, m, r);
    }
  }

  /** However long the run: when the bull speaks in the latest chunk with messages, the plan at the
      boundary is that chunk's alone. */
  lemma NeverAccumulates(v: Panel, chunks: seq<Chunk>, selected: seq<Analyst>, n: nat, m: nat)
    requires m < n <= |chunks| && InvestmentPlan in v.sections
    requires chunks[m].messages != [] && LastLine(chunks[m].debate.bullHistory) != ""
    requires forall i :: m < i < n ==> chunks[i].messages == []
    ensures var w := Through(v, chunks, selected, n);
            InvestmentPlan in w.sections && w.sections[InvestmentPlan] == Some(Rebuilt(chunks[m]))
  {
    var batches := Batches(chunks, selected);
    forall plan ensures AllEdited(plan, batches[m]) == Some(Rebuilt(chunks[m])) {
      ChunkEdits(plan, chunks[m], selected);
      PlanIsRebuilt(plan, chunks[m]);
    }
    PlanSince(v, batches, n, m, Some(Rebuilt(chunks[m])));
  }
}
