/**
 * `DaoUpdatesAgent._analyze_proposal_impact`: turns a proposal's metadata and
 * the language model's reply into an impact analysis (summary, affected areas,
 * risk level), with fixed fallbacks for unusable input.
 */
module Impact {
  import opened PyStrings

  datatype RiskLevel = Low | Medium | High

  /** The `ImpactAnalysis` record. */
  datatype ImpactAnalysis = ImpactAnalysis(summary: string, affectedAreas: seq<string>, riskLevel: RiskLevel)

  /** One field of a JSON object as the Tally client returns it: absent, `null`, or a string. */
  datatype Field = Missing | Null | Text(text: string)

  /** The `metadata` entry of a proposal node: absent, `null`, or an object with a title and a description. */
  datatype Metadata = MetadataMissing | MetadataNull | MetadataObject(title: Field, description: Field)

  /** A proposal node of the Tally response (only the entries the agent reads). */
  datatype Proposal = Proposal(id: Field, metadata: Metadata)

  /** A Python value read out of a field: a string or `None`. */
  datatype Value = Str(s: string) | PyNone

  const DefaultTitle := "Unknown Proposal"
  const DefaultDescription := "No description available."
  const SummaryMarker := "Summary:"
  const AreasMarker := "Areas:"
  const RiskMarker := "Risk:"
  const UnknownArea := "Unknown"

  /** Returned when the title or the description is blank. */
  const NoDataAnalysis := ImpactAnalysis("No valid proposal data available", [UnknownArea], Medium)
  /** Returned when anything raises, including a reply of fewer than three lines. */
  const ErrorAnalysis := ImpactAnalysis("Error analyzing proposal", [UnknownArea], Medium)
  /** Replaces a blank summary line. */
  const EmptySummary := "Could not analyze impact"

  /** Python's `dict.get(key, default)` on one field. */
  function Get(f: Field, default: string): Value {
    match f
    case Missing => Str(default)
    case Null => PyNone
    case Text(s) => Str(s)
  }

  /** The title `_analyze_proposal_impact` reads (an absent metadata entry reads as `{}`). */
  function TitleOf(m: Metadata): Value
    requires !m.MetadataNull?
  {
    if m.MetadataMissing? then Str(DefaultTitle) else Get(m.title, DefaultTitle)
  }

  /** The description `_analyze_proposal_impact` reads. */
  function DescriptionOf(m: Metadata): Value
    requires !m.MetadataNull?
  {
    if m.MetadataMissing? then Str(DefaultDescription) else Get(m.description, DefaultDescription)
  }

  /** Both the title and the description are strings that are not blank: the model is asked. */
  predicate HasValidData(m: Metadata) {
    !m.MetadataNull?
    && TitleOf(m).Str? && Strip(TitleOf(m).s) != ""
    && DescriptionOf(m).Str? && Strip(DescriptionOf(m).s) != ""
  }

  /** The fixed text of the prompt before the title, between title and description, and after the description. */
  const PromptIntro := "Analyze this governance proposal and determine its impact:\nProposal Title: "
  const PromptMiddle := "\nDescription: "
  const PromptInstructions :=
    "\n\nProvide:\n1. A brief summary of potential impact\n2. Key areas affected\n3. Risk level (low/medium/high)\n"
    + "Format:\nSummary: [your summary]\nAreas: [comma-separated list of affected areas]\nRisk: [low/medium/high]\n"

  /** The prompt sent to the language model: the title and the description verbatim inside the fixed text. */
  function Prompt(title: string, description: string): (r: string)
    ensures |r| == |PromptIntro| + |title| + |PromptMiddle| + |description| + |PromptInstructions|
    ensures r[|PromptIntro|..|PromptIntro| + |title|] == title
    ensures r[|r| - |PromptInstructions| - |description|..|r| - |PromptInstructions|] == description
  {
    PromptIntro + title + PromptMiddle + description + PromptInstructions
  }

  /** A reply line with every occurrence of its marker deleted and the rest stripped. */
  function FieldText(line: string, marker: string): (r: string)
    requires marker != []
    ensures IsStripped(r)
    ensures |r| <= |line|
  {
    Strip(RemoveAll(line, marker))
  }

  /** `[area.strip() for area in parts]`. */
  function StripAll(parts: seq<string>): (r: seq<string>)
    ensures |r| == |parts|
    ensures forall i :: 0 <= i < |r| ==> r[i] == Strip(parts[i])
  {
    seq(|parts|, i requires 0 <= i < |parts| => Strip(parts[i]))
  }

  /** `risk if risk in ['low', 'medium', 'high'] else "medium"`. */
  function NormalizeRisk(risk: string): (r: RiskLevel)
    ensures r == Low <==> risk == "low"
    ensures r == High <==> risk == "high"
    ensures r == Medium <==> risk != "low" && risk != "high"
  {
    if risk == "low" then Low
    else if risk == "medium" then Medium
    else if risk == "high" then High
    else Medium
  }

  /** Fields of a reply with at least three lines. */
  function ParseLines(lines: seq<string>): (r: ImpactAnalysis)
    requires |lines| >= 3
    ensures r.summary != "" && |r.affectedAreas| >= 1
  {
    var summary := FieldText(lines[0], SummaryMarker);
    var areas := StripAll(Split(FieldText(lines[1], AreasMarker), ','));
    var risk := Lower(FieldText(lines[2], RiskMarker));
    ImpactAnalysis(
      if summary == "" then EmptySummary else summary,
      if areas == [] then [UnknownArea] else areas,
      NormalizeRisk(risk))
  }

  /** The part of `_analyze_proposal_impact` after the model has replied. */
  function ParseReply(reply: string): (r: ImpactAnalysis)
    ensures r.summary != ""
    ensures |r.affectedAreas| >= 1
    ensures Count(reply, '\n') < 2 <==> |Split(reply, '\n')| < 3
    ensures Count(reply, '\n') < 2 ==> r == ErrorAnalysis
  {
    var lines := Split(reply, '\n');
    if |lines| < 3 then ErrorAnalysis else ParseLines(lines)
  }

  /**
   * A reply of three or more lines: the summary is the first line without its
   * marker (or the fixed text when that is blank), there is one stripped,
   * comma-free area per comma-separated field of the second line, and the risk
   * is high or low exactly when the lower-cased third line says so.
   */
  lemma ParseReplyFields(reply: string)
    requires Count(reply, '\n') >= 2
    ensures var lines := Split(reply, '\n');
      var r := ParseReply(reply);
      var summary := FieldText(lines[0], SummaryMarker);
      var areas := FieldText(lines[1], AreasMarker);
      var risk := Lower(FieldText(lines[2], RiskMarker));
      && (summary != "" ==> r.summary == summary)
      && (summary == "" ==> r.summary == EmptySummary)
      && |r.affectedAreas| == Count(areas, ',') + 1
      && (forall i :: 0 <= i < |r.affectedAreas| ==> r.affectedAreas[i] == Strip(Split(areas, ',')[i]))
      && (forall i :: 0 <= i < |r.affectedAreas| ==> IsStripped(r.affectedAreas[i]) && ',' !in r.affectedAreas[i])
      && (r.riskLevel == High <==> risk == "high")
      && (r.riskLevel == Low <==> risk == "low")
  {
    var lines := Split(reply, '\n');
    var parts := Split(FieldText(lines[1], AreasMarker), ',');
    var areas := StripAll(parts);
    forall i | 0 <= i < |areas| ensures ',' !in areas[i] {
      StripKeepsOut(parts[i], ',');
    }
  }

  /** `_analyze_proposal_impact(proposal)` with the model given as the function from prompt to reply. */
  function AnalyzeProposalImpact(p: Proposal, llm: string -> string): (r: ImpactAnalysis)
    ensures r.summary != "" && |r.affectedAreas| >= 1
    ensures HasValidData(p.metadata) ==>
      r == ParseReply(llm(Prompt(TitleOf(p.metadata).s, DescriptionOf(p.metadata).s)))
  {
    match p.metadata
    case MetadataNull => ErrorAnalysis
    case _ =>
      var title := TitleOf(p.metadata);
      if title.PyNone? then ErrorAnalysis
      else if Strip(title.s) == "" then NoDataAnalysis
      else
        var description := DescriptionOf(p.metadata);
        if description.PyNone? then ErrorAnalysis
        else if Strip(description.s) == "" then NoDataAnalysis
        else ParseReply(llm(Prompt(title.s, description.s)))
  }

  /**
   * Blank data: a title that strips to nothing, or a string title followed by
   * a description that strips to nothing, gives the no-data fallback whatever
   * the model would say.
   */
  lemma BlankProposalFallback(p: Proposal, llm: string -> string)
    requires !p.metadata.MetadataNull? && TitleOf(p.metadata).Str?
    requires Strip(TitleOf(p.metadata).s) == ""
             || (DescriptionOf(p.metadata).Str? && Strip(DescriptionOf(p.metadata).s) == "")
    ensures AnalyzeProposalImpact(p, llm) == NoDataAnalysis
  {
  }

  /** The model is consulted only when the proposal has a usable title and description. */
  lemma ModelConsultedOnlyForValidData(p: Proposal, llm1: string -> string, llm2: string -> string)
    requires !HasValidData(p.metadata)
    ensures AnalyzeProposalImpact(p, llm1) == AnalyzeProposalImpact(p, llm2)
    ensures AnalyzeProposalImpact(p, llm1) in {NoDataAnalysis, ErrorAnalysis}
  {
  }

  /** A reply with fewer than two line breaks falls back to the error analysis. */
  lemma ShortReplyFallback(reply: string)
    requires Count(reply, '\n') < 2
    ensures ParseReply(reply) == ErrorAnalysis
  {
  }

  /**
   * The risk level is medium exactly when the lower-cased third line is
   * neither low nor high: any other word falls back to medium.
   */
  lemma RiskDefaultsToMedium(reply: string)
    requires Count(reply, '\n') >= 2
    ensures var risk := Lower(FieldText(Split(reply, '\n')[2], RiskMarker));
            ParseReply(reply).riskLevel == Medium <==> risk != "low" && risk != "high"
  {
  }

  /**
   * The `or ["Unknown"]` fallback for the areas never fires: a blank areas
   * line yields one empty area, not `["Unknown"]`.
   */
  lemma BlankAreasLine(reply: string)
    requires Count(reply, '\n') >= 2
    requires FieldText(Split(reply, '\n')[1], AreasMarker) == ""
    ensures ParseReply(reply).affectedAreas == [""]
  {
    var lines := Split(reply, '\n');
    assert |lines| >= 3;
    assert Split("", ',') == [""];
    assert Strip("") == "";
    assert StripAll([""]) == [""];
    assert ParseReply(reply) == ParseLines(lines);
  }

  // ----- The reply format the prompt asks for, and the round trip through the parser -----

  function RiskName(r: RiskLevel): string {
    match r
    case Low => "low"
    case Medium => "medium"
    case High => "high"
  }

  /** A summary or area that a formatted reply carries unchanged: one stripped line without a colon. */
  predicate IsCleanField(x: string) {
    x != "" && IsStripped(x) && '\n' !in x && ':' !in x
  }

  predicate IsWellFormed(a: ImpactAnalysis) {
    IsCleanField(a.summary) && |a.affectedAreas| >= 1
    && forall i :: 0 <= i < |a.affectedAreas| ==> IsCleanField(a.affectedAreas[i]) && ',' !in a.affectedAreas[i]
  }

  /** A reply in the requested format: `Summary: …`, `Areas: a,b,…`, `Risk: …` on three lines. */
  function FormatReply(a: ImpactAnalysis): string {
    Join([SummaryMarker + " " + a.summary,
          AreasMarker + " " + Join(a.affectedAreas, ','),
          RiskMarker + " " + RiskName(a.riskLevel)], '\n')
  }

  /** A marker followed by a space and a clean value reads back as the value. */
  lemma FieldTextOfMarked(marker: string, x: string)
    requires ':' in marker
    requires ':' !in x && IsStripped(x)
    ensures FieldText(marker + " " + x, marker) == x
  {
    assert marker + " " + x == marker + (" " + x);
    RemoveAllLeading(marker, " " + x);
    NotOccursByChar(marker, " " + x, ':');
    RemoveAllAbsent(" " + x, marker);
    StripPadded(" ", x);
  }

  /** The joined areas of a well-formed analysis are stripped and carry no colon or line break. */
  lemma JoinedAreasClean(areas: seq<string>)
    requires |areas| >= 1
    requires forall i :: 0 <= i < |areas| ==> IsCleanField(areas[i]) && ',' !in areas[i]
    ensures var j := Join(areas, ',');
            IsStripped(j) && ':' !in j && '\n' !in j
  {
    var j := Join(areas, ',');
    JoinEnds(areas, ',');
    JoinAvoids(areas, ',', ':');
    JoinAvoids(areas, ',', '\n');
    var first, last := areas[0], areas[|areas| - 1];
    assert IsCleanField(first) && IsCleanField(last);
    assert j[0] == j[..|first|][0] == first[0];
    assert j[|j| - 1] == j[|j| - |last|..][|last| - 1] == last[|last| - 1];
  }

  /** Stripping every part of a list of stripped parts changes nothing. */
  lemma StripAllStripped(parts: seq<string>)
    requires forall i :: 0 <= i < |parts| ==> IsStripped(parts[i])
    ensures StripAll(parts) == parts
  {
    forall i | 0 <= i < |parts| ensures StripAll(parts)[i] == parts[i] {
      StripStripped(parts[i]);
    }
  }

  /** The areas line of a formatted reply reads back as the areas. */
  lemma AreasRoundTrip(areas: seq<string>)
    requires |areas| >= 1
    requires forall i :: 0 <= i < |areas| ==> IsCleanField(areas[i]) && ',' !in areas[i]
    ensures StripAll(Split(FieldText(AreasMarker + " " + Join(areas, ','), AreasMarker), ',')) == areas
  {
    var joined := Join(areas, ',');
    JoinedAreasClean(areas);
    FieldTextOfMarked(AreasMarker, joined);
    assert FieldText(AreasMarker + " " + joined, AreasMarker) == joined;
    SplitJoin(areas, ',');
    assert Split(joined, ',') == areas;
    StripAllStripped(areas);
  }

  /** A lower-case word after the risk marker reads back as itself. */
  lemma RiskWordRoundTrip(w: string)
    requires ':' !in w && IsStripped(w)
    requires forall i :: 0 <= i < |w| ==> !IsUpper(w[i])
    ensures Lower(FieldText(RiskMarker + " " + w, RiskMarker)) == w
  {
    FieldTextOfMarked(RiskMarker, w);
    LowerOfLower(w);
  }

  /**
   * The risk word is matched without regard to case: any spelling of low,
   * medium or high in upper- or lower-case letters gives that level.
   */
  lemma RiskWordIgnoresCase(w: string, level: RiskLevel)
    requires |w| == |RiskName(level)|
    requires forall i :: 0 <= i < |w| ==> LowerChar(w[i]) == RiskName(level)[i]
    ensures NormalizeRisk(Lower(w)) == level
  {
    var name := RiskName(level);
    assert forall i :: 0 <= i < |name| ==> !IsUpper(name[i]);
    LowerOfLower(name);
    LowerIgnoresCase(w, name);
  }

  /** The risk line of a formatted reply reads back as the risk level. */
  lemma RiskRoundTrip(r: RiskLevel)
    ensures NormalizeRisk(Lower(FieldText(RiskMarker + " " + RiskName(r), RiskMarker))) == r
  {
    RiskWordRoundTrip(RiskName(r));
  }

  /** Parsing a reply in the requested format gives back the analysis it was formatted from. */
  lemma ParseFormatRoundTrip(a: ImpactAnalysis)
    requires IsWellFormed(a)
    ensures ParseReply(FormatReply(a)) == a
  {
    var joined := Join(a.affectedAreas, ',');
    JoinedAreasClean(a.affectedAreas);
    var lines := [SummaryMarker + " " + a.summary, AreasMarker + " " + joined, RiskMarker + " " + RiskName(a.riskLevel)];
    assert '\n' !in lines[0];
    assert '\n' !in lines[1];
    assert '\n' !in lines[2];
    SplitJoin(lines, '\n');
    assert Split(FormatReply(a), '\n') == lines;
    FieldTextOfMarked(SummaryMarker, a.summary);
    AreasRoundTrip(a.affectedAreas);
    RiskRoundTrip(a.riskLevel);
    assert ParseLines(lines) == a;
  }
}
