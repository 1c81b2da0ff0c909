/** cli/main.py, MessageBuffer: the recent messages, the status of each agent and the reports. */
module MessageBuffer {
  import opened Common
  import opened Reports

  datatype Agent =
    | MarketAnalyst | SocialAnalyst | NewsAnalyst | FundamentalsAnalyst
    | BullResearcher | BearResearcher | ResearchManager
    | Trader
    | RiskyAnalyst | NeutralAnalyst | SafeAnalyst
    | PortfolioManager
    | OtherAgent(name: string)

  datatype Status = Pending | InProgress | Completed
  {
    function Rank(): nat {
      match this
      case Pending => 0
      case InProgress => 1
      case Completed => 2
    }
  }

  type Statuses = map<Agent, Status>

  /** The agents in the order in which the buffer declares them. */
  const AGENTS: seq<Agent> :=
    [MarketAnalyst, SocialAnalyst, NewsAnalyst, FundamentalsAnalyst,
     BullResearcher, BearResearcher, ResearchManager, Trader,
     RiskyAnalyst, NeutralAnalyst, SafeAnalyst, PortfolioManager]

  predicate Tracked(a: Agent) {
    !a.OtherAgent?
  }

  lemma AgentsTracked(a: Agent)
    ensures a in AGENTS <==> Tracked(a)
  {
    if a.PortfolioManager? {
      assert AGENTS[11] == a;
    }
  }

  ghost predicate TracksAgents(statuses: Statuses) {
    forall a :: a in statuses <==> Tracked(a)
  }

  function AllAre(status: Status): (statuses: Statuses)
    ensures TracksAgents(statuses) && forall a :: Tracked(a) ==> statuses[a] == status
  {
    assert forall a :: a in AGENTS <==> Tracked(a) by {
      forall a { AgentsTracked(a); }
    }
    map a | a in AGENTS :: status
  }

  datatype Line = Line(kind: string, content: string)
  datatype ToolCall = ToolCall(name: string, args: string)

  /** The last `n` items of a list. */
  function Recent<T>(all: seq<T>, n: nat): seq<T> {
    if |all| <= n then all else all[|all| - n..]
  }

  /** A full deque drops its oldest item when a new one comes in. */
  lemma RecentAppend<T>(all: seq<T>, n: nat, item: T)
    ensures Recent(all + [item], n) ==
            if n == 0 then []
            else if |Recent(all, n)| == n then Recent(all, n)[1..] + [item]
            else Recent(all, n) + [item]
  {
  }

  /** What a run does to the buffer. */
  datatype Effect =
    | SetStatus(agent: Agent, status: Status)
    | Put(section: Section, content: Option<string>)
    | Extend(section: Section, addition: string)
    | Say(kind: string, text: string)
    | Call(name: string, args: string)

  /** The buffer as a value; `lines` and `calls` are all that were ever added. */
  datatype Panel = Panel(
    status: Statuses,
    current: Option<Agent>,
    sections: Sections,
    shown: Option<string>,
    lines: seq<Line>,
    calls: seq<ToolCall>)
  {
    function Do(e: Effect): Panel {
      match e
      case SetStatus(agent, status) =>
        if Tracked(agent) then this.(status := this.status[agent := status], current := Some(agent)) else this
      case Put(section, content) => Store(section, content)
      case Extend(section, addition) =>
        Store(section, Some(Formatted(if section in sections then sections[section] else None) + "\n\n" + addition))
      case Say(kind, content) => this.(lines := lines + [Line(kind, content)])
      case Call(name, args) => this.(calls := calls + [ToolCall(name, args)])
    }

    function Store(section: Section, content: Option<string>): Panel {
      if Declared(section) then
        var after := sections[section := content];
        this.(sections := after, shown := Shown(shown, after))
      else this
    }

    function DoAll(effects: seq<Effect>): Panel
      decreases |effects|
    {
      if effects == [] then this else DoAll(effects[..|effects| - 1]).Do(effects[|effects| - 1])
    }

    lemma DoAllOne(x: Effect)
      ensures DoAll([x]) == Do(x)
    {
      assert [x][..0] == [];
    }

    lemma DoAllTwo(x: Effect, y: Effect)
      ensures DoAll([x, y]) == Do(x).Do(y)
    {
      assert [x, y][..1] == [x];
      DoAllOne(x);
    }

    lemma DoAllThree(x: Effect, y: Effect, z: Effect)
      ensures DoAll([x, y, z]) == Do(x).Do(y).Do(z)
    {
      assert [x, y, z][..2] == [x, y];
      DoAllTwo(x, y);
    }

    lemma DoAllFour(w: Effect, x: Effect, y: Effect, z: Effect)
      ensures DoAll([w, x, y, z]) == Do(w).Do(x).Do(y).Do(z)
    {
      assert [w, x, y, z][..3] == [w, x, y];
      DoAllThree(w, x, y);
    }

    lemma {:induction false} DoAllAppend(first: seq<Effect>, second: seq<Effect>)
      ensures DoAll(first + second) == DoAll(first).DoAll(second)
      decreases |second|
    {
      if second == [] {
        assert first + second == first;
      } else {
        var front, last := second[..|second| - 1], second[|second| - 1];
        DoAllAppend(first, front);
        assert first + second == (first + front) + [last];
        assert (first + second)[..|first + second| - 1] == first + front;
      }
    }
  }

  /** How an f-string shows a section. */
  function Formatted(content: Option<string>): string {
    match content
    case None => "None"
    case Some(text) => text
  }

  class MessageBuffer {
    const maxLength: nat
    var messages: seq<Line>
    var toolCalls: seq<ToolCall>
    var currentReport: Option<string>
    var finalReport: Option<string>
    var agentStatus: Statuses
    var currentAgent: Option<Agent>
    var reportSections: Sections
    /** Everything that was ever added. */
    ghost var allMessages: seq<Line>
    ghost var allToolCalls: seq<ToolCall>

    ghost predicate Valid()
      reads this
    {
      && messages == Recent(allMessages, maxLength)
      && toolCalls == Recent(allToolCalls, maxLength)
      && TracksAgents(agentStatus)
      && Complete(reportSections)
      && finalReport == FinalReport(reportSections)
    }

    ghost function View(): Panel
      reads this
    {
      Panel(agentStatus, currentAgent, reportSections, currentReport, allMessages, allToolCalls)
    }

    constructor (maxLength: nat)
      ensures Valid() && this.maxLength == maxLength
      ensures allMessages == [] && allToolCalls == []
      ensures agentStatus == AllAre(Pending) && currentAgent == None
      ensures reportSections == NoSections() && currentReport == None && finalReport == None
    {
      this.maxLength := maxLength;
      messages, toolCalls, allMessages, allToolCalls := [], [], [], [];
      currentReport, finalReport, currentAgent := None, None, None;
      agentStatus := AllAre(Pending);
      reportSections := NoSections();
      NoReportIffNothing(NoSections());
    }

    method AddMessage(kind: string, content: string)
      requires Valid()
      modifies `messages, `allMessages
      ensures Valid() && View() == old(View()).Do(Say(kind, content))
    {
      RecentAppend(allMessages, maxLength, Line(kind, content));
      messages := Appended(messages, Line(kind, content));
      allMessages := allMessages + [Line(kind, content)];
    }

    method AddToolCall(name: string, args: string)
      requires Valid()
      modifies `toolCalls, `allToolCalls
      ensures Valid() && View() == old(View()).Do(Call(name, args))
    {
      RecentAppend(allToolCalls, maxLength, ToolCall(name, args));
      toolCalls := Appended(toolCalls, ToolCall(name, args));
      allToolCalls := allToolCalls + [ToolCall(name, args)];
    }

    /** append of a bounded deque. */
    function Appended<T>(items: seq<T>, item: T): seq<T> {
      if maxLength == 0 then []
      else if |items| == maxLength then items[1..] + [item]
      else items + [item]
    }

    method UpdateAgentStatus(agent: Agent, status: Status)
      requires Valid()
      modifies `agentStatus, `currentAgent
      ensures Valid() && View() == old(View()).Do(SetStatus(agent, status))
    {
      if agent in agentStatus {
        agentStatus := agentStatus[agent := status];
        currentAgent := Some(agent);
      }
    }

    method UpdateReportSection(section: Section, content: Option<string>)
      requires Valid()
      modifies `reportSections, `currentReport, `finalReport
      ensures Valid() && View() == old(View()).Do(Put(section, content))
    {
      if section in reportSections {
        reportSections := reportSections[section := content];
        UpdateCurrentReport();
      }
    }

    method UpdateCurrentReport()
      requires Complete(reportSections)
      modifies `currentReport, `finalReport
      ensures currentReport == Shown(old(currentReport), reportSections)
      ensures finalReport == FinalReport(reportSections)
    {
      var latestSection, latestContent := None, None;
      for k := 0 to |ORDER|
        invariant latestSection == LastGiven(reportSections, k)
        invariant latestSection.Some? ==>
                    latestSection.value in reportSections && latestContent == reportSections[latestSection.value]
      {
        if reportSections[ORDER[k]] != None {
          latestSection, latestContent := Some(ORDER[k]), reportSections[ORDER[k]];
        }
      }
      if latestSection.Some? && latestContent.Some? && latestContent.value != "" {
        currentReport := Some(Titled(latestSection.value, latestContent.value));
      }
      UpdateFinalReport();
    }

    /** The analysts' part of _update_final_report. */
    method AnalystParts() returns (reportParts: seq<string>)
      requires Complete(reportSections)
      ensures reportParts == Parts(reportSections, 4)
    {
      reportParts := [];
      PartsEmpty(reportSections, 4);
      if AnyTruthy(reportSections, 4) {
        reportParts := ["## Analyst Team Reports"];
        reportParts := AnalystPart(reportParts, 0);
        reportParts := AnalystPart(reportParts, 1);
        reportParts := AnalystPart(reportParts, 2);
        reportParts := AnalystPart(reportParts, 3);
      }
    }

    method AnalystPart(reportParts: seq<string>, k: nat) returns (extended: seq<string>)
      requires Complete(reportSections) && k < 4 && reportParts == Headed(reportSections, k)
      ensures extended == Headed(reportSections, k + 1)
    {
      HeadedNext(reportSections, k);
      extended := reportParts;
      if Truthy(reportSections, ORDER[k]) {
        extended := extended + [Titled(ORDER[k], reportSections[ORDER[k]].value)];
      }
    }

    /** The part of one other team: its heading, then the text. */
    method TeamPart(reportParts: seq<string>, k: nat) returns (extended: seq<string>)
      requires Complete(reportSections) && 4 <= k < |ORDER| && reportParts == Parts(reportSections, k)
      ensures extended == Parts(reportSections, k + 1)
    {
      extended := reportParts;
      if Truthy(reportSections, ORDER[k]) {
        extended := extended + ["## " + Title(ORDER[k])];
        extended := extended + [reportSections[ORDER[k]].value];
      }
    }

    method UpdateFinalReport()
      requires Complete(reportSections)
      modifies `finalReport
      ensures finalReport == FinalReport(reportSections)
    {
      var reportParts := AnalystParts();
      reportParts := TeamPart(reportParts, 4);
      reportParts := TeamPart(reportParts, 5);
      reportParts := TeamPart(reportParts, 6);
      finalReport := if reportParts != [] then Some(Paragraphs(reportParts)) else None;
    }
  }
}
