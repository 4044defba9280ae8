/**
 * The studio view: the prompt composer, the brief validator, the template
 * picker, and the view state that the asset-type and template handlers and
 * the generate action update.
 */
module Studio {
  import opened Records
  import opened Text
  import opened Seqs
  import GenerateRoute

  /** The three asset types the view offers. */
  datatype AssetType = WhitePaper | ComparisonGuide | SponsoredBlogPost {
    /** The type's label, as the select shows it and the prompt names it. */
    function Name(): string {
      match this
      case WhitePaper => "White Paper"
      case ComparisonGuide => "Comparison Guide"
      case SponsoredBlogPost => "Sponsored Blog Post"
    }
  }

  /** The brief fields the view holds. */
  datatype Brief = Brief(
    title: string,
    audience: string,
    industry: string,
    solution: string,
    diffs: string,
    competitors: string,
    tone: string,
    cta: string,
    notes: string)

  /** The brief the view starts with. */
  const InitialBrief: Brief := Brief(
    "New Project",
    "IT Director / Infrastructure Lead",
    "Healthcare",
    "Enterprise Backup & Recovery / Ransomware Resilience",
    "Immutable backups, fast restores, air-gapped copies, strong support SLAs, simple management",
    "",
    "Confident, consultative, minimal hype",
    "Book a 15-minute consult",
    "")

  // ---------------------------------------------------------------------------
  // Brief validation and template filtering
  // ---------------------------------------------------------------------------

  /**
   * `canGenerate`: audience, industry, solution, differentiators, tone and
   * CTA all have content after trimming. Title, competitors and notes play
   * no part.
   */
  function CanGenerate(b: Brief): (r: bool)
    ensures r <==>
      && HasContent(b.audience) && HasContent(b.industry) && HasContent(b.solution)
      && HasContent(b.diffs) && HasContent(b.tone) && HasContent(b.cta)
  {
    BlankSpec(b.audience);
    BlankSpec(b.industry);
    BlankSpec(b.solution);
    BlankSpec(b.diffs);
    BlankSpec(b.tone);
    BlankSpec(b.cta);
    !IsBlank(b.audience) && !IsBlank(b.industry) && !IsBlank(b.solution)
    && !IsBlank(b.diffs) && !IsBlank(b.tone) && !IsBlank(b.cta)
  }

  /**
   * `filteredTemplates`: the active templates of the chosen asset type, in
   * their listed order, each as often as listed.
   */
  function FilteredTemplates(templates: seq<Template>, assetType: AssetType): (r: seq<Template>)
    ensures IsSubsequence(r, templates)
    ensures forall t :: t in r <==> t in templates && t.isActive && t.assetType == assetType.Name()
    ensures forall t: Template :: t.isActive && t.assetType == assetType.Name() ==> multiset(r)[t] == multiset(templates)[t]
  {
    var keep := (t: Template) => t.isActive && t.assetType == assetType.Name();
    forall t ensures t in Filter(templates, keep) <==> t in templates && keep(t) {
      InFilter(templates, keep, t);
    }
    Filter(templates, keep)
  }

  /** `templates.find((x) => x.id === id)`: the first template with that id. */
  function FindTemplate(templates: seq<Template>, id: string): (r: Option<Template>)
    ensures r.None? <==> forall t :: t in templates ==> t.id != id
    ensures r.Some? ==> r.value.id == id
    ensures r.Some? ==>
      exists k :: 0 <= k < |templates| && templates[k] == r.value && forall j :: 0 <= j < k ==> templates[j].id != id
  {
    if templates == [] then None
    else if templates[0].id == id then Some(templates[0])
    else
      var r := FindTemplate(templates[1..], id);
      assert forall t :: t in templates[1..] ==> t in templates;
      assert r.Some? ==>
        exists k :: 1 <= k < |templates| && templates[k] == r.value && forall j :: 0 <= j < k ==> templates[j].id != id;
      r
  }

  // ---------------------------------------------------------------------------
  // Prompt composition
  // ---------------------------------------------------------------------------

  /** `value || "None"`. */
  function OrNone(value: string): string {
    if value == "" then "None" else value
  }

  /** The first line of the prompt. */
  function Header(assetType: AssetType): string {
    "Create a " + assetType.Name() + "."
  }

  /** One labelled line of the brief. */
  function BriefLine(key: string, value: string): string {
    "\n- " + key + ": " + value
  }

  /** The brief, field by field, optional fields shown as `None` when empty. */
  function BriefBlock(b: Brief): string {
    "\n\nBrief:"
    + BriefLine("Audience", b.audience)
    + BriefLine("Industry", b.industry)
    + BriefLine("Product/Solution", b.solution)
    + BriefLine("Differentiators/Proof points", b.diffs)
    + BriefLine("Competitors (if any)", OrNone(b.competitors))
    + BriefLine("Tone", b.tone)
    + BriefLine("CTA", b.cta)
    + BriefLine("Extra notes", OrNone(b.notes))
  }

  // The fixed texts below are written as concatenations of short pieces;
  // the text is the same, and the verifier handles short literals cheaply.

  /** The required sections of all three asset types. */
  const RequirementsBlock: string :=
    "\n\nAsset requirements:"
    + "\n- White Paper: executive " + "summary, problem framing, " + "trends, recommended "
      + "approach, implementation " + "considerations, " + "objections/FAQ, CTA."
    + "\n- Comparison Guide: " + "evaluation criteria table, " + "narrative comparison by "
      + "criteria, tradeoffs/risks, " + "\U{201C}when to choose us\U{201D}, CTA."
    + "\n- Sponsored Blog Post: " + "strong hook, practical " + "guidance, subtle product "
      + "tie-in, CTA."

  /** The guardrails against invented facts. */
  const RulesBlock: string :=
    "\n\nRules:"
    + "\n- Do NOT invent customer " + "names, quotes, awards, " + "certifications, or "
      + "statistics."
    + "\n- If you mention market " + "stats, label them \U{201C}needs " + "verification\U{201D} unless "
      + "provided above."
    + "\n- Output Markdown with " + "headings, bullets, short " + "paragraphs."
    + "\n- End with \U{201C}Compliance & " + "Verification Checklist\U{201D}."

  /** The lines that open and close a prior draft in the prompt. */
  const DraftOpen: string := "Prior draft to revise:\n---\n"
  const DraftClose: string := "\n---"

  /** The words that introduce a revision instruction. */
  const InstructionWords: string := "Revision instruction:"
  const InstructionLead: string := InstructionWords + " "

  /** The prior-draft block, present only when there is a draft. */
  function DraftBlock(draft: string): string {
    if draft != "" then DraftOpen + draft + DraftClose + "\n" else ""
  }

  /** The revision line, present only when there is an instruction. */
  function InstructionBlock(instruction: string): string {
    if instruction != "" then InstructionLead + instruction else ""
  }

  /**
   * `buildPrompt(instruction)`: the template literal over the view's state,
   * trimmed. An absent instruction is the empty string.
   */
  function BuildPrompt(assetType: AssetType, b: Brief, draft: string, instruction: string): string {
    Trim(
      "\n" + Header(assetType) + BriefBlock(b) + RequirementsBlock + RulesBlock
      + "\n\n" + DraftBlock(draft)
      + "\n" + InstructionBlock(instruction)
      + "\n")
  }

  /** The part of every prompt that does not depend on the draft or the instruction. */
  function Core(assetType: AssetType, b: Brief): string {
    Header(assetType) + BriefBlock(b) + RequirementsBlock + RulesBlock
  }

  /** The revision line once trailing whitespace is trimmed off the prompt. */
  function RevisionLine(instruction: string): string {
    if IsBlank(instruction) then InstructionWords
    else InstructionLead + TrimEnd(instruction)
  }

  /**
   * What follows the fixed blocks: the prior draft exactly when there is
   * one, then the revision line exactly when there is an instruction.
   */
  function Tail(draft: string, instruction: string): string {
    (if draft == "" then "" else "\n\n" + (DraftOpen + draft + DraftClose))
    + (if instruction == "" then "" else (if draft == "" then "\n\n\n" else "\n\n") + RevisionLine(instruction))
  }

  lemma TrimEndEmpty(s: string)
    ensures TrimEnd(s) == [] <==> IsBlank(s)
  {
    TrimEndSpec(s);
    BlankSpec(s);
    if AllWhitespace(s) {
      TrimEndDrop([], s);
      assert [] + s == s;
    }
  }

  lemma InstructionWordsKept()
    ensures TrimEnd(InstructionWords) == InstructionWords
    ensures TrimEnd(" ") == []
  {
    assert InstructionWords[|InstructionWords| - 1] == ':';
  }

  lemma RevisionLineSpec(instruction: string)
    ensures TrimEnd(InstructionLead + instruction) == RevisionLine(instruction)
  {
    var lead := InstructionWords;
    var spaced := " " + instruction;
    Assoc(lead, " ", instruction);
    TrimEndAppend(lead, spaced);
    TrimEndAppend(" ", instruction);
    InstructionWordsKept();
    TrimEndEmpty(instruction);
    if !IsBlank(instruction) {
      Assoc(lead, " ", TrimEnd(instruction));
    }
  }

  lemma Assoc<T>(a: seq<T>, b: seq<T>, c: seq<T>)
    ensures a + b + c == a + (b + c)
  {
  }

  lemma Regroup<T>(x: seq<T>, k: seq<T>, n: seq<T>, y: seq<T>)
    ensures ((x + (k + n)) + n) + y == (x + k) + ((n + n) + y)
  {
  }

  /** A non-empty draft block ends, once trimmed, with its closing rule. */
  lemma DraftKept(draft: string)
    ensures TrimEnd("\n\n" + (DraftOpen + draft + DraftClose)) == "\n\n" + (DraftOpen + draft + DraftClose)
  {
    var k := DraftOpen + draft + DraftClose;
    assert DraftClose[|DraftClose| - 1] == '-';
    TrimEndAppend(DraftOpen + draft, DraftClose);
    TrimEndAppend("\n\n", k);
  }

  lemma TailNeither()
    ensures TrimEnd("\n\n" + DraftBlock("") + "\n" + InstructionBlock("") + "\n") == Tail("", "")
  {
    var rest := "\n\n" + DraftBlock("") + "\n" + InstructionBlock("") + "\n";
    assert rest == "\n\n\n\n";
    TrimEndDrop([], rest);
    assert [] + rest == rest;
  }

  lemma TailInstructionOnly(instruction: string)
    requires instruction != ""
    ensures TrimEnd("\n\n" + DraftBlock("") + "\n" + InstructionBlock(instruction) + "\n") == Tail("", instruction)
  {
    var x := "\n\n" + DraftBlock("") + "\n";
    var line := InstructionLead + instruction;
    assert x == "\n\n\n";
    TrimEndDrop(x + line, "\n");
    RevisionLineSpec(instruction);
    TrimEndAppend(x, line);
  }

  lemma TailDraftOnly(draft: string)
    requires draft != ""
    ensures TrimEnd("\n\n" + DraftBlock(draft) + "\n" + InstructionBlock("") + "\n") == Tail(draft, "")
  {
    var k := DraftOpen + draft + DraftClose;
    var y := "\n\n" + DraftBlock(draft) + "\n" + InstructionBlock("");
    TrimEndDrop(y, "\n");
    Regroup("\n\n", k, "\n", "");
    assert ("\n" + "\n") + "" == "\n\n";
    assert y == ("\n\n" + k) + "\n\n";
    TrimEndDrop("\n\n" + k, "\n\n");
    DraftKept(draft);
  }

  lemma TailBoth(draft: string, instruction: string)
    requires draft != "" && instruction != ""
    ensures TrimEnd("\n\n" + DraftBlock(draft) + "\n" + InstructionBlock(instruction) + "\n") == Tail(draft, instruction)
  {
    var k := DraftOpen + draft + DraftClose;
    var line := InstructionLead + instruction;
    var x := "\n\n" + DraftBlock(draft) + "\n";
    TrimEndDrop(x + line, "\n");
    RevisionLineSpec(instruction);
    TrimEndAppend(x, line);
    Regroup("\n\n", k, "\n", RevisionLine(instruction));
    assert "\n" + "\n" == "\n\n";
  }

  /** The trimmed end of everything after the fixed blocks is `Tail`. */
  lemma TailSpec(draft: string, instruction: string)
    ensures TrimEnd("\n\n" + DraftBlock(draft) + "\n" + InstructionBlock(instruction) + "\n") == Tail(draft, instruction)
  {
    if draft == "" && instruction == "" {
      TailNeither();
    } else if draft == "" {
      TailInstructionOnly(instruction);
    } else if instruction == "" {
      TailDraftOnly(draft);
    } else {
      TailBoth(draft, instruction);
    }
  }

  lemma HeaderStart(assetType: AssetType)
    ensures Header(assetType) != [] && Header(assetType)[0] == 'C'
  {
  }

  lemma RulesEnd()
    ensures RulesBlock != [] && RulesBlock[|RulesBlock| - 1] == '.'
  {
  }

  lemma FrameRegroup<T>(w: seq<T>, h: seq<T>, b: seq<T>, q: seq<T>, r: seq<T>, x1: seq<T>, d: seq<T>, x2: seq<T>, i: seq<T>, x3: seq<T>)
    ensures w + h + b + q + r + x1 + d + x2 + i + x3 == w + ((h + b + q + r) + (x1 + d + x2 + i + x3))
  {
  }

  lemma FirstAndLast<T>(h: seq<T>, x: seq<T>, y: seq<T>, r: seq<T>)
    requires h != [] && r != []
    ensures (h + x + y + r)[0] == h[0]
    ensures (h + x + y + r)[|h + x + y + r| - 1] == r[|r| - 1]
  {
  }

  /**
   * The trimming argument for any fixed part that starts with `C` and ends
   * with `.`: the leading line break goes, the fixed part stays whole, and
   * what follows it is `Tail`.
   */
  lemma FramedShape(h: string, m: string, q: string, r: string, draft: string, instruction: string)
    requires h != [] && h[0] == 'C'
    requires r != [] && r[|r| - 1] == '.'
    ensures Trim("\n" + h + m + q + r + "\n\n" + DraftBlock(draft) + "\n" + InstructionBlock(instruction) + "\n")
      == h + m + q + r + Tail(draft, instruction)
  {
    var core := h + m + q + r;
    var rest := "\n\n" + DraftBlock(draft) + "\n" + InstructionBlock(instruction) + "\n";
    FrameRegroup("\n", h, m, q, r, "\n\n", DraftBlock(draft), "\n", InstructionBlock(instruction), "\n");
    FirstAndLast(h, m, q, r);
    TrimFrame("\n", core, rest);
    TailSpec(draft, instruction);
  }

  /**
   * The prompt is the fixed part (header, brief, requirements of all three
   * types, rules) followed by `Tail`: the draft block appears exactly when
   * the draft is non-empty, the revision line exactly when the instruction
   * is, and the draft block comes first.
   */
  lemma PromptShape(assetType: AssetType, b: Brief, draft: string, instruction: string)
    ensures BuildPrompt(assetType, b, draft, instruction) == Core(assetType, b) + Tail(draft, instruction)
  {
    HeaderStart(assetType);
    RulesEnd();
    FramedShape(Header(assetType), BriefBlock(b), RequirementsBlock, RulesBlock, draft, instruction);
  }

  lemma HeadSplit(h: string, m: string, q: string, r: string, t: string)
    ensures h <= h + m + q + r + t
    ensures (h + m + q + r + t)[|h|..] == m + q + r + t
  {
    assert h + m + q + r + t == h + (m + q + r + t);
  }

  lemma FiveParts(h: string, m: string, q: string, r: string, t: string)
    ensures IsInfix(m, h + m + q + r + t)
    ensures IsInfix(q, h + m + q + r + t)
    ensures IsInfix(r, h + m + q + r + t)
  {
    InfixEnd(m, h);
    InfixExtend(m, h + m, q);
    InfixExtend(m, h + m + q, r);
    InfixExtend(m, h + m + q + r, t);
    InfixEnd(q, h + m);
    InfixExtend(q, h + m + q, r);
    InfixExtend(q, h + m + q + r, t);
    InfixEnd(r, h + m + q);
    InfixExtend(r, h + m + q + r, t);
  }

  /**
   * Every prompt opens with `Create a <type>.` and carries the brief, the
   * requirements of all three asset types and the rules, whatever the type,
   * the draft and the instruction.
   */
  lemma PromptContents(assetType: AssetType, b: Brief, draft: string, instruction: string)
    ensures Header(assetType) <= BuildPrompt(assetType, b, draft, instruction)
    ensures IsInfix(BriefBlock(b), BuildPrompt(assetType, b, draft, instruction))
    ensures IsInfix(RequirementsBlock, BuildPrompt(assetType, b, draft, instruction))
    ensures IsInfix(RulesBlock, BuildPrompt(assetType, b, draft, instruction))
  {
    PromptShape(assetType, b, draft, instruction);
    HeadSplit(Header(assetType), BriefBlock(b), RequirementsBlock, RulesBlock, Tail(draft, instruction));
    FiveParts(Header(assetType), BriefBlock(b), RequirementsBlock, RulesBlock, Tail(draft, instruction));
  }

  /**
   * The brief shows every field verbatim after its label, the two optional
   * ones as `None` when empty.
   */
  lemma BriefLinesShown(b: Brief)
    ensures IsInfix(BriefLine("Audience", b.audience), BriefBlock(b))
    ensures IsInfix(BriefLine("Industry", b.industry), BriefBlock(b))
    ensures IsInfix(BriefLine("Product/Solution", b.solution), BriefBlock(b))
    ensures IsInfix(BriefLine("Differentiators/Proof points", b.diffs), BriefBlock(b))
    ensures IsInfix(BriefLine("Competitors (if any)", OrNone(b.competitors)), BriefBlock(b))
    ensures IsInfix(BriefLine("Tone", b.tone), BriefBlock(b))
    ensures IsInfix(BriefLine("CTA", b.cta), BriefBlock(b))
    ensures IsInfix(BriefLine("Extra notes", OrNone(b.notes)), BriefBlock(b))
  {
    var s0 := "\n\nBrief:";
    var s1 := BriefLine("Audience", b.audience);
    var s2 := BriefLine("Industry", b.industry);
    var s3 := BriefLine("Product/Solution", b.solution);
    var s4 := BriefLine("Differentiators/Proof points", b.diffs);
    var s5 := BriefLine("Competitors (if any)", OrNone(b.competitors));
    var s6 := BriefLine("Tone", b.tone);
    var s7 := BriefLine("CTA", b.cta);
    var s8 := BriefLine("Extra notes", OrNone(b.notes));
    EachPieceOccurs(s0, s1, s2, s3, s4, s5, s6, s7, s8);
  }

  lemma EachPieceOccurs(s0: string, s1: string, s2: string, s3: string, s4: string, s5: string, s6: string, s7: string, s8: string)
    ensures var all := s0 + s1 + s2 + s3 + s4 + s5 + s6 + s7 + s8;
      && IsInfix(s1, all) && IsInfix(s2, all) && IsInfix(s3, all) && IsInfix(s4, all)
      && IsInfix(s5, all) && IsInfix(s6, all) && IsInfix(s7, all) && IsInfix(s8, all)
  {
    var p1 := s0 + s1;
    var p2 := p1 + s2;
    var p3 := p2 + s3;
    var p4 := p3 + s4;
    var p5 := p4 + s5;
    var p6 := p5 + s6;
    var p7 := p6 + s7;
    var p8 := p7 + s8;
    forall x | x in [s1, s2, s3, s4, s5, s6, s7, s8]
      ensures IsInfix(x, p8)
    {
      if x == s1 { InfixEnd(s1, s0); InfixExtendSeven(x, p1, s2, s3, s4, s5, s6, s7, s8); }
      else if x == s2 { InfixEnd(s2, p1); InfixExtendSeven(x, p2, [], s3, s4, s5, s6, s7, s8); assert p2 + [] == p2; }
      else if x == s3 { InfixEnd(s3, p2); InfixExtendSeven(x, p3, [], [], s4, s5, s6, s7, s8); assert p3 + [] + [] == p3; }
      else if x == s4 { InfixEnd(s4, p3); InfixExtendSeven(x, p4, [], [], [], s5, s6, s7, s8); assert p4 + [] + [] + [] == p4; }
      else if x == s5 { InfixEnd(s5, p4); InfixExtendSeven(x, p5, [], [], [], [], s6, s7, s8); assert p5 + [] + [] + [] + [] == p5; }
      else if x == s6 { InfixEnd(s6, p5); InfixExtend(x, p6, s7); InfixExtend(x, p7, s8); }
      else if x == s7 { InfixEnd(s7, p6); InfixExtend(x, p7, s8); }
      else { InfixEnd(s8, p7); }
    }
  }

  lemma InfixExtendSeven(x: string, p: string, c1: string, c2: string, c3: string, c4: string, c5: string, c6: string, c7: string)
    requires IsInfix(x, p)
    ensures IsInfix(x, p + c1 + c2 + c3 + c4 + c5 + c6 + c7)
  {
    InfixExtend(x, p, c1);
    InfixExtend(x, p + c1, c2);
    InfixExtend(x, p + c1 + c2, c3);
    InfixExtend(x, p + c1 + c2 + c3, c4);
    InfixExtend(x, p + c1 + c2 + c3 + c4, c5);
    InfixExtend(x, p + c1 + c2 + c3 + c4 + c5, c6);
    InfixExtend(x, p + c1 + c2 + c3 + c4 + c5 + c6, c7);
  }

  /** The prompt has content and no whitespace at either end. */
  lemma PromptTrimmed(assetType: AssetType, b: Brief, draft: string, instruction: string)
    ensures BuildPrompt(assetType, b, draft, instruction) != []
    ensures Trimmed(BuildPrompt(assetType, b, draft, instruction))
  {
    PromptContents(assetType, b, draft, instruction);
    HeaderStart(assetType);
    var raw := "\n" + Header(assetType) + BriefBlock(b) + RequirementsBlock + RulesBlock
      + "\n\n" + DraftBlock(draft) + "\n" + InstructionBlock(instruction) + "\n";
    TrimSpec(raw);
  }

  /** Switching the asset type changes the header line and nothing else. */
  lemma OnlyHeaderVaries(t1: AssetType, t2: AssetType, b: Brief, draft: string, instruction: string)
    ensures Header(t1) <= BuildPrompt(t1, b, draft, instruction)
    ensures Header(t2) <= BuildPrompt(t2, b, draft, instruction)
    ensures BuildPrompt(t1, b, draft, instruction)[|Header(t1)|..] == BuildPrompt(t2, b, draft, instruction)[|Header(t2)|..]
  {
    var tail := Tail(draft, instruction);
    PromptShape(t1, b, draft, instruction);
    PromptShape(t2, b, draft, instruction);
    HeadSplit(Header(t1), BriefBlock(b), RequirementsBlock, RulesBlock, tail);
    HeadSplit(Header(t2), BriefBlock(b), RequirementsBlock, RulesBlock, tail);
  }

  // ---------------------------------------------------------------------------
  // The generation request
  // ---------------------------------------------------------------------------

  /** The four one-click refinements, each a fixed revision instruction. */
  datatype Refinement = MoreTechnical | Shorter | LessSalesy | AddFaq {
    function Instruction(): string {
      match this
      case MoreTechnical => "Make it more technical " + "and add implementation " + "steps."
      case Shorter => "Shorten by about 35% " + "while keeping structure " + "and CTA."
      case LessSalesy => "Make it more consultative " + "and less salesy; reduce " + "hype."
      case AddFaq => "Add an objections/FAQ " + "section with 6 Q&As."
    }
  }

  /** Each refinement is a non-blank instruction that trimming leaves whole. */
  lemma RefinementTrimmed(q: Refinement)
    ensures q.Instruction() != [] && !IsBlank(q.Instruction())
    ensures TrimEnd(q.Instruction()) == q.Instruction()
  {
    var i := q.Instruction();
    assert i[0] in "MSA" && i[|i| - 1] == '.';
    TrimmedFixed(i);
  }

  /**
   * A one-click refinement of a draft asks for `Refining…`, and its prompt
   * is the fixed part, then the prior draft, then the refinement's
   * instruction, with nothing after it.
   */
  lemma RefinementPrompt(assetType: AssetType, b: Brief, draft: string, q: Refinement)
    requires draft != ""
    ensures q.Instruction() != ""
    ensures BuildPrompt(assetType, b, draft, q.Instruction())
      == Core(assetType, b) + (("\n\n" + (DraftOpen + draft + DraftClose)) + ("\n\n" + (InstructionLead + q.Instruction())))
  {
    RefinementTrimmed(q);
    RevisedPrompt(assetType, b, draft, q.Instruction());
  }

  /** A draft revised with an instruction that trimming leaves whole. */
  lemma RevisedPrompt(assetType: AssetType, b: Brief, draft: string, instruction: string)
    requires draft != "" && !IsBlank(instruction) && TrimEnd(instruction) == instruction
    ensures BuildPrompt(assetType, b, draft, instruction)
      == Core(assetType, b) + (("\n\n" + (DraftOpen + draft + DraftClose)) + ("\n\n" + (InstructionLead + instruction)))
  {
    PromptShape(assetType, b, draft, instruction);
    RevisedTail(draft, instruction);
  }

  lemma RevisedTail(draft: string, instruction: string)
    requires draft != "" && !IsBlank(instruction) && TrimEnd(instruction) == instruction
    ensures Tail(draft, instruction) == ("\n\n" + (DraftOpen + draft + DraftClose)) + ("\n\n" + (InstructionLead + instruction))
  {
    assert instruction != "";
  }

  /**
   * The body `generate(instruction)` posts: the built prompt, no project
   * id, and `null` in place of an empty instruction or template prompt.
   */
  function RequestBody(assetType: AssetType, b: Brief, draft: string, instruction: string, templatePrompt: string): (r: GenerateBody)
    ensures r.prompt == BuildPrompt(assetType, b, draft, instruction) && r.projectId.None?
    ensures r.instruction.None? <==> instruction == ""
    ensures r.instruction.Some? ==> r.instruction.value == instruction
    ensures r.templateSystemPrompt.None? <==> templatePrompt == ""
    ensures r.templateSystemPrompt.Some? ==> r.templateSystemPrompt.value == templatePrompt
  {
    GenerateBody(
      BuildPrompt(assetType, b, draft, instruction),
      None,
      if instruction == "" then None else Some(instruction),
      if templatePrompt == "" then None else Some(templatePrompt))
  }

  /**
   * What the gateway sends the model for a studio request it accepts: the
   * chosen template's prompt, trimmed, as the system message when it has
   * content, the default otherwise; the studio's prompt as the user
   * message.
   */
  lemma RequestMessages(
    session: SessionEmail, apiKey: Option<string>, users: seq<User>,
    assetType: AssetType, b: Brief, draft: string, instruction: string, templatePrompt: string)
    ensures var plan := GenerateRoute.PlanRequest(session, apiKey, users, RequestBody(assetType, b, draft, instruction, templatePrompt));
      plan.Send? ==>
        plan.messages == [
          GenerateRoute.Message(GenerateRoute.SystemRole, if IsBlank(templatePrompt) then DefaultSystemPrompt else Trim(templatePrompt)),
          GenerateRoute.Message(GenerateRoute.UserRole, BuildPrompt(assetType, b, draft, instruction))]
  {
    if templatePrompt == "" {
      assert IsBlank(templatePrompt);
    }
  }

  /** A template found by id among the filtered ones is one of them, with that id. */
  lemma SelectionInList(templates: seq<Template>, assetType: AssetType, id: string)
    ensures var found := FindTemplate(FilteredTemplates(templates, assetType), id);
      found.Some? ==>
        exists t :: t in FilteredTemplates(templates, assetType) && t.id == id && t.systemPrompt == found.value.systemPrompt
  {
    var list := FilteredTemplates(templates, assetType);
    var found := FindTemplate(list, id);
    if found.Some? {
      var k :| 0 <= k < |list| && list[k] == found.value && forall j :: 0 <= j < k ==> list[j].id != id;
      assert list[k] in list;
    }
  }

  // ---------------------------------------------------------------------------
  // The view state
  // ---------------------------------------------------------------------------

  /** The studio's state, which its handlers update in place. */
  class StudioView {
    var assetType: AssetType
    var templates: seq<Template>
    var templateId: string
    var templatePrompt: string
    var brief: Brief
    var draft: string
    var loading: bool
    var status: string

    /**
     * A template prompt in use is that of the selected template, which is
     * active and of the current asset type.
     */
    ghost predicate Valid()
      reads this
    {
      templatePrompt != "" ==>
        exists t :: t in FilteredTemplates(templates, assetType) && t.id == templateId && t.systemPrompt == templatePrompt
    }

    /** `Generate Draft` is enabled: the required brief fields are filled in and nothing is in flight. */
    predicate GenerateEnabled(): (r: bool)
      reads this
      ensures r <==>
        && HasContent(brief.audience) && HasContent(brief.industry) && HasContent(brief.solution)
        && HasContent(brief.diffs) && HasContent(brief.tone) && HasContent(brief.cta)
        && !loading
    {
      CanGenerate(brief) && !loading
    }

    /**
     * The one-click refinements are enabled: nothing is in flight and the
     * prompt would carry a prior draft to revise.
     */
    predicate RefineEnabled(): (r: bool)
      reads this
      ensures r <==> !loading && DraftBlock(draft) != ""
    {
      draft != "" && !loading
    }

    constructor ()
      ensures Valid()
      ensures assetType == WhitePaper && templates == [] && templateId == "" && templatePrompt == ""
      ensures brief == InitialBrief && draft == "" && !loading && status == ""
    {
      assetType := WhitePaper;
      templates := [];
      templateId := "";
      templatePrompt := "";
      brief := InitialBrief;
      draft := "";
      loading := false;
      status := "";
    }

    /**
     * The mount effect: the listing's templates on success, nothing
     * otherwise. It runs once, while the list is still empty.
     */
    method LoadTemplates(resp: Response<Listing>)
      requires Valid() && templates == []
      modifies this
      ensures Valid()
      ensures resp.Json? ==> templates == resp.body.templates
      ensures !resp.Json? ==> templates == old(templates)
      ensures assetType == old(assetType) && templateId == old(templateId) && templatePrompt == old(templatePrompt)
      ensures brief == old(brief) && draft == old(draft) && loading == old(loading) && status == old(status)
    {
      if resp.Json? {
        templates := resp.body.templates;
      }
    }

    /** Choosing an asset type drops the template selection. */
    method SelectAssetType(t: AssetType)
      modifies this
      ensures Valid()
      ensures assetType == t && templateId == "" && templatePrompt == ""
      ensures templates == old(templates) && brief == old(brief) && draft == old(draft)
      ensures loading == old(loading) && status == old(status)
    {
      assetType := t;
      templateId := "";
      templatePrompt := "";
    }

    /**
     * Choosing a template by id: its prompt is taken from the first active
     * template of the current type with that id, `""` when there is none.
     */
    method SelectTemplate(id: string)
      modifies this
      ensures Valid()
      ensures templateId == id
      ensures FindTemplate(FilteredTemplates(templates, assetType), id).None? ==> templatePrompt == ""
      ensures FindTemplate(FilteredTemplates(templates, assetType), id).Some? ==>
        templatePrompt == FindTemplate(FilteredTemplates(templates, assetType), id).value.systemPrompt
      ensures assetType == old(assetType) && templates == old(templates) && brief == old(brief)
      ensures draft == old(draft) && loading == old(loading) && status == old(status)
    {
      var found := FindTemplate(FilteredTemplates(templates, assetType), id);
      SelectionInList(templates, assetType, id);
      templateId := id;
      templatePrompt := if found.Some? then found.value.systemPrompt else "";
    }

    /** Editing a brief field. */
    method EditBrief(b: Brief)
      requires Valid()
      modifies this
      ensures Valid()
      ensures brief == b
      ensures assetType == old(assetType) && templates == old(templates) && templateId == old(templateId)
      ensures templatePrompt == old(templatePrompt) && draft == old(draft)
      ensures loading == old(loading) && status == old(status)
    {
      brief := b;
    }

    /** Editing the draft in the output area. */
    method EditDraft(d: string)
      requires Valid()
      modifies this
      ensures Valid()
      ensures draft == d
      ensures assetType == old(assetType) && templates == old(templates) && templateId == old(templateId)
      ensures templatePrompt == old(templatePrompt) && brief == old(brief)
      ensures loading == old(loading) && status == old(status)
    {
      draft := d;
    }

    /**
     * The body `generate(instruction)` posts, built from the current
     * state; `BeginGenerate` leaves every field it reads unchanged. A
     * template prompt it sends is that of the selected template, which is
     * active and of the current asset type.
     */
    function Request(instruction: string): (r: GenerateBody)
      reads this
      requires Valid()
      ensures r.prompt == BuildPrompt(assetType, brief, draft, instruction)
      ensures r.templateSystemPrompt.Some? ==>
        exists t :: t in FilteredTemplates(templates, assetType) && t.id == templateId && t.systemPrompt == r.templateSystemPrompt.value
    {
      RequestBody(assetType, brief, draft, instruction, templatePrompt)
    }

    /**
     * The synchronous start of `generate(instruction)`: the view is marked
     * busy, which disables every generating button, and the status says
     * whether it is refining or generating.
     */
    method BeginGenerate(instruction: string)
      requires Valid()
      modifies this
      ensures Valid()
      ensures loading && status == (if instruction != "" then "Refining\U{2026}" else "Generating\U{2026}")
      ensures !GenerateEnabled() && !RefineEnabled()
      ensures assetType == old(assetType) && templates == old(templates) && templateId == old(templateId)
      ensures templatePrompt == old(templatePrompt) && brief == old(brief) && draft == old(draft)
    {
      loading := true;
      status := if instruction != "" then "Refining\U{2026}" else "Generating\U{2026}";
    }

    /**
     * The end of `generate`: an accepted answer replaces the draft with its
     * text and reports done; any failure clears the status and keeps the
     * draft. Either way the view is no longer busy.
     */
    method FinishGenerate(resp: Response<string>)
      requires Valid()
      modifies this
      ensures Valid()
      ensures !loading
      ensures resp.Json? ==> draft == resp.body && status == "Done \U{2705}"
      ensures !resp.Json? ==> draft == old(draft) && status == ""
      ensures GenerateEnabled() <==> CanGenerate(brief)
      ensures RefineEnabled() <==> draft != ""
      ensures assetType == old(assetType) && templates == old(templates) && templateId == old(templateId)
      ensures templatePrompt == old(templatePrompt) && brief == old(brief)
    {
      if resp.Json? {
        draft := resp.body;
        status := "Done \U{2705}";
      } else {
        status := "";
      }
      loading := false;
    }
  }
}
