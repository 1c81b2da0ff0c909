/** cli/main.py, MessageBuffer: the sections of the report and the two texts that are shown for them. */
module Reports {
  import opened Common
  import Text

  datatype Section =
    | MarketReport | SentimentReport | NewsReport | FundamentalsReport
    | InvestmentPlan | TraderInvestmentPlan | FinalTradeDecision
    | OtherSection(name: string)

  type Sections = map<Section, Option<string>>

  /** The sections in the order in which the buffer declares them. */
  const ORDER: seq<Section> :=
    [MarketReport, SentimentReport, NewsReport, FundamentalsReport,
     InvestmentPlan, TraderInvestmentPlan, FinalTradeDecision]

  predicate Declared(s: Section) {
    !s.OtherSection?
  }

  ghost predicate Complete(sections: Sections) {
    forall s :: s in sections <==> Declared(s)
  }

  function NoSections(): (sections: Sections)
    ensures Complete(sections) && forall s :: Declared(s) ==> sections[s] == None
  {
    assert forall s :: s in ORDER <==> Declared(s) by {
      forall s { SectionsDeclared(s); }
    }
    map s | s in ORDER :: None
  }

  lemma SectionsDeclared(s: Section)
    ensures s in ORDER <==> Declared(s)
  {
    if s.FinalTradeDecision? {
      assert ORDER[6] == s;
    }
  }

  predicate Given(sections: Sections, s: Section) {
    s in sections && sections[s].Some?
  }

  predicate Truthy(sections: Sections, s: Section) {
    Given(sections, s) && sections[s].value != ""
  }

  function Title(s: Section): string {
    match s
    case MarketReport => "Market Analysis"
    case SentimentReport => "Social Sentiment"
    case NewsReport => "News Analysis"
    case FundamentalsReport => "Fundamentals Analysis"
    case InvestmentPlan => "Research Team Decision"
    case TraderInvestmentPlan => "Trading Team Plan"
    case FinalTradeDecision => "Portfolio Management Decision"
    case OtherSection(name) => name
  }

  function Titled(s: Section, content: string): string {
    "### " + Title(s) + "\n" + content
  }

  // ---- the final report ----

  /** Paragraphs separated by an empty line. */
  function Paragraphs(parts: seq<string>): string {
    if |parts| == 0 then ""
    else if |parts| == 1 then parts[0]
    else Paragraphs(parts[..|parts| - 1]) + "\n\n" + parts[|parts| - 1]
  }

  predicate AnyTruthy(sections: Sections, k: nat)
    requires k <= |ORDER|
  {
    exists i :: 0 <= i < k && Truthy(sections, ORDER[i])
  }

  /** The heading of the team in front of section number `k`: the analysts share one. */
  function Heading(sections: Sections, k: nat): seq<string>
    requires k < |ORDER|
  {
    if k >= 4 then ["## " + Title(ORDER[k])]
    else if AnyTruthy(sections, k) then []
    else ["## Analyst Team Reports"]
  }

  function Block(sections: Sections, k: nat): string
    requires k < |ORDER| && Truthy(sections, ORDER[k])
  {
    if k < 4 then Titled(ORDER[k], sections[ORDER[k]].value) else sections[ORDER[k]].value
  }

  /** What the first `k` sections contribute. */
  function Parts(sections: Sections, k: nat): seq<string>
    requires k <= |ORDER|
  {
    if k == 0 then []
    else
      Parts(sections, k - 1)
      + if Truthy(sections, ORDER[k - 1]) then Heading(sections, k - 1) + [Block(sections, k - 1)] else []
  }

  /** The final report as a function of the sections alone. */
  function FinalReport(sections: Sections): Option<string> {
    ReportOf(Parts(sections, |ORDER|))
  }

  function ReportOf(parts: seq<string>): Option<string> {
    if parts == [] then None else Some(Paragraphs(parts))
  }

  lemma {:induction false} PartsEmpty(sections: Sections, k: nat)
    requires k <= |ORDER|
    ensures Parts(sections, k) == [] <==> !AnyTruthy(sections, k)
  {
    if k > 0 {
      PartsEmpty(sections, k - 1);
    }
  }

  /** There is a final report exactly when some section has text. */
  lemma NoReportIffNothing(sections: Sections)
    ensures FinalReport(sections).None? <==> forall i :: 0 <= i < |ORDER| ==> !Truthy(sections, ORDER[i])
  {
    PartsEmpty(sections, |ORDER|);
  }

  /** The parts of the first `k` analysts when the heading is written in advance. */
  function Headed(sections: Sections, k: nat): seq<string>
    requires k <= 4
  {
    if AnyTruthy(sections, k) then Parts(sections, k) else ["## Analyst Team Reports"]
  }

  lemma HeadedNext(sections: Sections, k: nat)
    requires k < 4
    ensures Headed(sections, k + 1) ==
            Headed(sections, k)
            + if Truthy(sections, ORDER[k]) then [Titled(ORDER[k], sections[ORDER[k]].value)] else []
  {
    assert AnyTruthy(sections, k + 1) <==> AnyTruthy(sections, k) || Truthy(sections, ORDER[k]);
    PartsEmpty(sections, k);
  }

  function PartNumber(sections: Sections, k: nat): nat
    requires k < |ORDER|
  {
    |Parts(sections, k)| + |Heading(sections, k)|
  }

  lemma {:induction false} PartsKeep(sections: Sections, i: nat, k: nat)
    requires i <= k <= |ORDER|
    ensures Parts(sections, i) <= Parts(sections, k)
  {
    if i < k {
      PartsKeep(sections, i, k - 1);
    }
  }

  lemma BlockIsPart(sections: Sections, k: nat, n: nat)
    requires k < n <= |ORDER| && Truthy(sections, ORDER[k])
    ensures PartNumber(sections, k) < |Parts(sections, k + 1)| <= |Parts(sections, n)|
    ensures Parts(sections, n)[PartNumber(sections, k)] == Block(sections, k)
  {
    PartsKeep(sections, k + 1, n);
    assert Parts(sections, k + 1)[PartNumber(sections, k)] == Block(sections, k);
  }

  /** Where a part ends in the text. */
  function EndOf(parts: seq<string>, p: nat): nat
    requires p < |parts|
  {
    |parts[p]| + if p == 0 then 0 else EndOf(parts, p - 1) + 2
  }

  lemma {:induction false} PartOccurs(parts: seq<string>, p: nat)
    requires p < |parts|
    ensures EndOf(parts, p) <= |Paragraphs(parts)|
    ensures Text.OccursAt(Paragraphs(parts), parts[p], EndOf(parts, p) - |parts[p]|)
    ensures p == |parts| - 1 ==> EndOf(parts, p) == |Paragraphs(parts)|
    decreases |parts|
  {
    if |parts| > 1 {
      var front := parts[..|parts| - 1];
      if p < |front| {
        PartOccurs(front, p);
        SameEnd(front, parts, p);
      } else {
        PartOccurs(front, p - 1);
        SameEnd(front, parts, p - 1);
      }
    }
  }

  lemma {:induction false} SameEnd(front: seq<string>, parts: seq<string>, p: nat)
    requires p < |front| && front <= parts
    ensures EndOf(front, p) == EndOf(parts, p)
  {
    if p > 0 {
      SameEnd(front, parts, p - 1);
    }
  }

  lemma {:induction false} EndsGrow(parts: seq<string>, p: nat, q: nat)
    requires p < q < |parts|
    ensures EndOf(parts, p) <= EndOf(parts, q) - |parts[q]|
  {
    if p < q - 1 {
      EndsGrow(parts, p, q - 1);
    }
  }

  /** Where the text of section number `k` ends in the final report. */
  function EndInReport(sections: Sections, k: nat): nat
    requires k < |ORDER| && Truthy(sections, ORDER[k])
  {
    BlockIsPart(sections, k, |ORDER|);
    EndOf(Parts(sections, |ORDER|), PartNumber(sections, k))
  }

  /** The text of every non-empty section stands in the final report. */
  lemma SectionInReport(sections: Sections, k: nat)
    requires k < |ORDER| && Truthy(sections, ORDER[k])
    ensures FinalReport(sections).Some?
    ensures var text, end := sections[ORDER[k]].value, EndInReport(sections, k);
            |text| <= end && Text.OccursAt(FinalReport(sections).value, text, end - |text|)
  {
    BlockIsPart(sections, k, |ORDER|);
    BlockEnds(sections, k);
    TailInParagraphs(Parts(sections, |ORDER|), PartNumber(sections, k), sections[ORDER[k]].value);
  }

  lemma TailInParagraphs(parts: seq<string>, p: nat, tail: string)
    requires p < |parts| && |tail| <= |parts[p]| && parts[p][|parts[p]| - |tail|..] == tail
    ensures |tail| <= EndOf(parts, p)
    ensures Text.OccursAt(Paragraphs(parts), tail, EndOf(parts, p) - |tail|)
  {
    PartOccurs(parts, p);
    OccursTail(Paragraphs(parts), parts[p], tail, EndOf(parts, p) - |parts[p]|);
  }

  lemma BlockEnds(sections: Sections, k: nat)
    requires k < |ORDER| && Truthy(sections, ORDER[k])
    ensures var block, text := Block(sections, k), sections[ORDER[k]].value;
            |text| <= |block| && block[|block| - |text|..] == text
  {
  }

  lemma OccursTail(s: string, p: string, tail: string, i: nat)
    requires Text.OccursAt(s, p, i) && |tail| <= |p| && p[|p| - |tail|..] == tail
    ensures Text.OccursAt(s, tail, i + |p| - |tail|)
  {
    assert s[i + |p| - |tail|..i + |p|] == p[|p| - |tail|..];
  }

  /** Sections follow each other in the report in the order of their declaration, without overlap. */
  lemma SectionsInOrder(sections: Sections, i: nat, k: nat)
    requires i < k < |ORDER| && Truthy(sections, ORDER[i]) && Truthy(sections, ORDER[k])
    ensures EndInReport(sections, i) <= EndInReport(sections, k) - |sections[ORDER[k]].value|
  {
    var parts := Parts(sections, |ORDER|);
    BlockIsPart(sections, i, |ORDER|);
    BlockIsPart(sections, k, |ORDER|);
    PartsKeep(sections, i + 1, k);
    EndsGrow(parts, PartNumber(sections, i), PartNumber(sections, k));
  }

  // ---- which heading stands above which text ----

  /** `heading` stands right in front of the text that ends at `end`. */
  predicate Heads(report: string, heading: string, text: string, end: nat) {
    |heading| + |text| <= end && Text.OccursAt(report, heading + text, end - |text| - |heading|)
  }

  /** Two parts that follow each other, with an empty line between them. */
  lemma {:induction false} Neighbours(parts: seq<string>, p: nat)
    requires 0 < p < |parts|
    ensures |parts[p - 1]| + 2 + |parts[p]| <= EndOf(parts, p)
    ensures Text.OccursAt(Paragraphs(parts), parts[p - 1] + "\n\n" + parts[p], EndOf(parts, p) - |parts[p]| - 2 - |parts[p - 1]|)
    decreases |parts|
  {
    var front, last := parts[..|parts| - 1], parts[|parts| - 1];
    if p < |front| {
      Neighbours(front, p);
      SameEnd(front, parts, p);
      OccursInFront(Paragraphs(front), "\n\n" + last, parts[p - 1] + "\n\n" + parts[p],
                    EndOf(parts, p) - |parts[p]| - 2 - |parts[p - 1]|);
      assert Paragraphs(parts) == Paragraphs(front) + ("\n\n" + last);
    } else {
      PartOccurs(front, p - 1);
      SameEnd(front, parts, p - 1);
      var whole := Paragraphs(front);
      assert whole[|whole| - |front[p - 1]|..] == front[p - 1];
      LastTwo(whole, front[p - 1], last);
    }
  }

  lemma LastTwo(whole: string, before: string, last: string)
    requires |before| <= |whole| && whole[|whole| - |before|..] == before
    ensures Text.OccursAt(whole + "\n\n" + last, before + "\n\n" + last, |whole| - |before|)
  {
    var start := |whole| - |before|;
    assert whole + "\n\n" + last == whole[..start] + (before + "\n\n" + last);
  }

  lemma OccursInFront(s: string, t: string, p: string, i: int)
    requires Text.OccursAt(s, p, i)
    ensures Text.OccursAt(s + t, p, i)
  {
    assert (s + t)[i..i + |p|] == s[i..i + |p|];
  }

  lemma HeadsInPart(parts: seq<string>, p: nat, heading: string, text: string)
    requires p < |parts| && parts[p] == heading + text
    ensures Heads(Paragraphs(parts), heading, text, EndOf(parts, p))
  {
    PartOccurs(parts, p);
  }

  lemma AnalystBlock(sections: Sections, k: nat)
    requires k < 4 && Truthy(sections, ORDER[k])
    ensures Block(sections, k) == ("### " + Title(ORDER[k]) + "\n") + sections[ORDER[k]].value
  {
  }

  lemma AnalystHeads(sections: Sections, k: nat, heading: string)
    requires k < 4 && Truthy(sections, ORDER[k]) && heading == "### " + Title(ORDER[k]) + "\n"
    ensures FinalReport(sections).Some?
    ensures Heads(FinalReport(sections).value, heading, sections[ORDER[k]].value, EndInReport(sections, k))
  {
    BlockIsPart(sections, k, |ORDER|);
    AnalystBlock(sections, k);
    HeadsInPart(Parts(sections, |ORDER|), PartNumber(sections, k), heading, sections[ORDER[k]].value);
  }

  lemma TeamParts(sections: Sections, k: nat)
    requires 4 <= k < |ORDER| && Truthy(sections, ORDER[k])
    ensures var parts, p := Parts(sections, |ORDER|), PartNumber(sections, k);
            0 < p < |parts| && parts[p - 1] == "## " + Title(ORDER[k]) && parts[p] == sections[ORDER[k]].value
  {
    BlockIsPart(sections, k, |ORDER|);
    PartsKeep(sections, k + 1, |ORDER|);
    assert Parts(sections, k + 1)[PartNumber(sections, k) - 1] == Heading(sections, k)[0];
  }

  lemma HeadsNext(parts: seq<string>, p: nat, heading: string)
    requires 0 < p < |parts| && heading == parts[p - 1] + "\n\n"
    ensures Heads(Paragraphs(parts), heading, parts[p], EndOf(parts, p))
  {
    Neighbours(parts, p);
  }

  lemma TeamHeads(sections: Sections, k: nat, heading: string)
    requires 4 <= k < |ORDER| && Truthy(sections, ORDER[k]) && heading == "## " + Title(ORDER[k]) + "\n\n"
    ensures FinalReport(sections).Some?
    ensures Heads(FinalReport(sections).value, heading, sections[ORDER[k]].value, EndInReport(sections, k))
  {
    TeamParts(sections, k);
    HeadsNext(Parts(sections, |ORDER|), PartNumber(sections, k), heading);
  }

  /** In the final report each text stands right below the heading of its own section. */
  lemma HeadingsAboveTexts(sections: Sections)
    ensures forall k :: 0 <= k < |ORDER| && Truthy(sections, ORDER[k]) ==>
              && FinalReport(sections).Some?
              && Heads(FinalReport(sections).value, OwnHeading(ORDER[k]), sections[ORDER[k]].value, EndInReport(sections, k))
  {
    forall k | 0 <= k < |ORDER| && Truthy(sections, ORDER[k])
      ensures FinalReport(sections).Some?
      ensures Heads(FinalReport(sections).value, OwnHeading(ORDER[k]), sections[ORDER[k]].value, EndInReport(sections, k))
    {
      WhoseSection(k);
      if k < 4 {
        AnalystHeading(ORDER[k]);
        AnalystHeads(sections, k, OwnHeading(ORDER[k]));
      } else {
        TeamHeading(ORDER[k]);
        TeamHeads(sections, k, OwnHeading(ORDER[k]));
      }
    }
  }

  function SecondLevel(title: string): string {
    "## " + title + "\n\n"
  }

  function ThirdLevel(title: string): string {
    "### " + title + "\n"
  }

  /** What should stand above the text of a section. */
  function OwnHeading(s: Section): string {
    match s
    case MarketReport => ThirdLevel("Market Analysis")
    case SentimentReport => ThirdLevel("Social Sentiment")
    case NewsReport => ThirdLevel("News Analysis")
    case FundamentalsReport => ThirdLevel("Fundamentals Analysis")
    case InvestmentPlan => SecondLevel("Research Team Decision")
    case TraderInvestmentPlan => SecondLevel("Trading Team Plan")
    case FinalTradeDecision => SecondLevel("Portfolio Management Decision")
    case OtherSection(name) => ""
  }

  predicate FromAnalyst(s: Section) {
    s.MarketReport? || s.SentimentReport? || s.NewsReport? || s.FundamentalsReport?
  }

  lemma AnalystHeading(s: Section)
    requires FromAnalyst(s)
    ensures OwnHeading(s) == "### " + Title(s) + "\n"
  {
  }

  lemma TeamHeading(s: Section)
    requires Declared(s) && !FromAnalyst(s)
    ensures OwnHeading(s) == "## " + Title(s) + "\n\n"
  {
  }

  lemma WhoseSection(k: nat)
    requires k < |ORDER|
    ensures Declared(ORDER[k]) && (FromAnalyst(ORDER[k]) <==> k < 4)
  {
  }

  /** The reports of the analysts, if there are any, open the final report under a heading of their own. */
  lemma AnalystsComeFirst(sections: Sections)
    requires AnyTruthy(sections, 4)
    ensures FinalReport(sections).Some? && Text.StartsWith(FinalReport(sections).value, "## Analyst Team Reports\n\n")
  {
    PartsKeep(sections, 4, |ORDER|);
    TwoParts(sections, 4);
    OpensWith(Parts(sections, |ORDER|));
    assert "## Analyst Team Reports" + "\n\n" == "## Analyst Team Reports\n\n";
  }

  lemma OpensWith(parts: seq<string>)
    requires |parts| >= 2
    ensures Text.StartsWith(Paragraphs(parts), parts[0] + "\n\n")
  {
    Neighbours(parts, 1);
    assert EndOf(parts, 0) == |parts[0]|;
    StartsBoth(Paragraphs(parts), parts[0] + "\n\n", parts[1]);
  }

  lemma StartsBoth(s: string, p: string, q: string)
    requires Text.OccursAt(s, p + q, 0)
    ensures Text.StartsWith(s, p)
  {
    assert s[..|p + q|][..|p|] == (p + q)[..|p|];
  }

  lemma {:induction false} TwoParts(sections: Sections, k: nat)
    requires k <= 4 && AnyTruthy(sections, k)
    ensures |Parts(sections, k)| >= 2 && Parts(sections, k)[0] == "## Analyst Team Reports"
  {
    if AnyTruthy(sections, k - 1) {
      TwoParts(sections, k - 1);
    } else {
      PartsEmpty(sections, k - 1);
    }
  }

  // ---- the report on display ----

  /** The last section, in the order of declaration, that was given. */
  function LastGiven(sections: Sections, k: nat): Option<Section>
    requires k <= |ORDER|
  {
    if k == 0 then None
    else if Given(sections, ORDER[k - 1]) then Some(ORDER[k - 1])
    else LastGiven(sections, k - 1)
  }

  /** What is on display: the last given section if it has text, and else what was there before. */
  function Shown(before: Option<string>, sections: Sections): Option<string> {
    var last := LastGiven(sections, |ORDER|);
    if last.Some? && Truthy(sections, last.value) then Some(Titled(last.value, sections[last.value].value)) else before
  }

  lemma {:induction false} LastGivenIs(sections: Sections, k: nat, i: nat)
    requires i < k <= |ORDER|
    ensures LastGiven(sections, k) == Some(ORDER[i]) <==>
            Given(sections, ORDER[i]) && forall j :: i < j < k ==> !Given(sections, ORDER[j])
  {
    if i < k - 1 {
      LastGivenIs(sections, k - 1, i);
    } else if k > 1 {
      LastGivenEarlier(sections, k - 1, i);
    }
  }

  lemma {:induction false} LastGivenEarlier(sections: Sections, k: nat, i: nat)
    requires k <= i < |ORDER|
    ensures LastGiven(sections, k) != Some(ORDER[i])
  {
    if k > 0 {
      LastGivenEarlier(sections, k - 1, i);
    }
  }

  /** The titles differ in their first letter. */
  lemma TitlesDiffer(i: nat, j: nat, text: string, other: string)
    requires i < j < |ORDER|
    ensures Titled(ORDER[i], text) != Titled(ORDER[j], other)
  {
    TitleAt(ORDER[i], text);
    TitleAt(ORDER[j], other);
    FirstLetters(i, j);
  }

  lemma TitleAt(s: Section, text: string)
    requires |Title(s)| > 0
    ensures |Titled(s, text)| > 4 && Titled(s, text)[4] == Title(s)[0]
  {
    assert "### " + Title(s) + "\n" + text == "### " + (Title(s) + "\n" + text);
  }

  lemma FirstLetters(i: nat, j: nat)
    requires i < j < |ORDER|
    ensures |Title(ORDER[i])| > 0 && |Title(ORDER[j])| > 0 && Title(ORDER[i])[0] != Title(ORDER[j])[0]
  {
  }

  /** Writing a text into a section puts it on display exactly when no later section was given. */
  lemma ShowsUpdateIffLast(before: Option<string>, sections: Sections, i: nat, text: string)
    requires i < |ORDER| && text != "" && before != Some(Titled(ORDER[i], text))
    ensures Shown(before, sections[ORDER[i] := Some(text)]) == Some(Titled(ORDER[i], text)) <==>
            forall j :: i < j < |ORDER| ==> !Given(sections, ORDER[j])
  {
    var after := sections[ORDER[i] := Some(text)];
    assert Given(after, ORDER[i]);
    LastGivenIs(after, |ORDER|, i);
    Others(i);
    var k := LaterGiven(after, |ORDER|, i);
    if k > i {
      TitlesDiffer(i, k, text, after[ORDER[k]].value);
      assert Given(sections, ORDER[k]);
    }
  }

  /** The display shows the last section that was given under its title; while that section is empty, or
      none was given, it stays as it is. */
  lemma DisplayIs(before: Option<string>, sections: Sections, i: nat)
    requires i < |ORDER| && Given(sections, ORDER[i]) && forall j :: i < j < |ORDER| ==> !Given(sections, ORDER[j])
    ensures var text := sections[ORDER[i]].value;
            Shown(before, sections) == if text == "" then before else Some(Titled(ORDER[i], text))
  {
    LastGivenIs(sections, |ORDER|, i);
  }

  lemma NothingToDisplay(before: Option<string>, sections: Sections)
    requires forall i :: 0 <= i < |ORDER| ==> !Given(sections, ORDER[i])
    ensures Shown(before, sections) == before
  {
    NoneGiven(sections, |ORDER|);
  }

  lemma {:induction false} NoneGiven(sections: Sections, k: nat)
    requires k <= |ORDER| && forall i :: 0 <= i < k ==> !Given(sections, ORDER[i])
    ensures LastGiven(sections, k) == None
  {
    if k > 0 {
      NoneGiven(sections, k - 1);
    }
  }

  lemma Others(i: nat)
    requires i < |ORDER|
    ensures forall j :: 0 <= j < |ORDER| && j != i ==> ORDER[j] != ORDER[i]
  {
  }

  /** The number of the section on display. */
  lemma {:induction false} LaterGiven(sections: Sections, k: nat, i: nat) returns (j: nat)
    requires i < k <= |ORDER| && Given(sections, ORDER[i])
    ensures i <= j < k && Given(sections, ORDER[j]) && LastGiven(sections, k) == Some(ORDER[j])
  {
    if Given(sections, ORDER[k - 1]) {
      j := k - 1;
    } else {
      j := LaterGiven(sections, k - 1, i);
    }
  }
}
