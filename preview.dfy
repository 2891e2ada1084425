/** The live preview of a resume, rendered to an abstract list of blocks
    instead of markup: a header, then each section whose data is present,
    one block per custom section, and a QR block for the portfolio link. */
module ResumePreview {
  import opened Resume
  import opened Text
  import opened Sequences
  import opened ResumeEditor

  // ---------------------------------------------------------------------------
  // Template style

  const PlainStyle := "bg-white"
  const GradientPrefix := "bg-gradient-to-br "

  /** `getTemplateStyles`: a gradient background for the three special templates, plain white otherwise. */
  function TemplateStyle(t: Template): (style: string)
    ensures style == PlainStyle <==> t == Professional
    ensures t != Professional ==> StartsWith(style, GradientPrefix)
  {
    match t
    case It => "bg-gradient-to-br from-blue-50 to-cyan-50"
    case Marketing => "bg-gradient-to-br from-purple-50 to-pink-50"
    case Design => "bg-gradient-to-br from-orange-50 to-yellow-50"
    case Professional => PlainStyle
  }

  /** A stored template name other than the three special ones is styled plain white. */
  lemma UnknownTemplatePlain(name: string)
    requires name != "it" && name != "marketing" && name != "design"
    ensures TemplateStyle(ParseTemplate(name)) == PlainStyle
  {
  }

  /** The three special templates get three different gradients. */
  lemma GradientsDiffer(s: Template, t: Template)
    ensures TemplateStyle(s) == TemplateStyle(t) <==> s == t
  {
  }

  // ---------------------------------------------------------------------------
  // Portfolio link

  /** The `portfolioUrl` derivation: a value starting with "http" is kept, any other
      non-empty value gets "https://" in front, and an absent or empty one gives "". */
  function PortfolioUrl(p: Option<string>): (url: string)
    ensures url == "" <==> !Truthy(p)
    ensures Truthy(p) ==> StartsWith(url, "http")
    ensures p.Some? && StartsWith(p.value, "http") ==> url == p.value
    ensures Truthy(p) && !StartsWith(p.value, "http") ==> url == "https://" + p.value
  {
    if p.Some? && StartsWith(p.value, "http") then p.value
    else if Truthy(p) then
      assert ("https://" + p.value)[..4] == "http";
      "https://" + p.value
    else ""
  }

  /** Normalising an already normalised link changes nothing. */
  lemma PortfolioUrlIdempotent(p: Option<string>)
    ensures PortfolioUrl(Some(PortfolioUrl(p))) == PortfolioUrl(p)
  {
  }

  // ---------------------------------------------------------------------------
  // Entries and skills

  /** The end of a date range as displayed: "Present" for a current entry, whatever its end date holds. */
  function DisplayedEnd(current: bool, endDate: string): (shown: string)
    ensures current ==> shown == "Present"
    ensures !current ==> shown == endDate
  {
    if current then "Present" else endDate
  }

  datatype WorkLine = WorkLine(position: string, company: string, startDate: string, endDate: string, description: string)

  datatype EducationLine = EducationLine(degree: string, field: string, institution: string, startDate: string, endDate: string)

  /** One work entry as the preview shows it. */
  function WorkEntry(w: WorkExperience): (line: WorkLine)
    ensures line.startDate == w.startDate && line.endDate == DisplayedEnd(w.current, w.endDate)
    ensures line.position == w.position && line.company == w.company && line.description == w.description
  {
    WorkLine(w.position, w.company, w.startDate, DisplayedEnd(w.current, w.endDate), w.description)
  }

  /** One education entry as the preview shows it. */
  function EducationEntry(e: Education): (line: EducationLine)
    ensures line.startDate == e.startDate && line.endDate == DisplayedEnd(e.current, e.endDate)
    ensures line.degree == e.degree && line.field == e.field && line.institution == e.institution
  {
    EducationLine(e.degree, e.field, e.institution, e.startDate, DisplayedEnd(e.current, e.endDate))
  }

  /** `skill && skill.trim()`: the skill is neither empty nor whitespace only. */
  predicate Shown(skill: string)
  {
    skill != "" && Trim(skill) != ""
  }

  /** A skill is shown exactly when it holds a visible character. */
  lemma ShownIffVisible(skill: string)
    ensures Shown(skill) <==> HasVisibleChar(skill)
  {
    TrimEmptyIffBlank(skill);
  }

  /** The skill chips: the stored skills that hold a visible character, in stored order, untrimmed,
      each as often as it is stored. */
  function DisplayedSkills(skills: seq<string>): (chips: seq<string>)
    ensures IsSubsequence(chips, skills)
    ensures forall i :: 0 <= i < |chips| ==> HasVisibleChar(chips[i])
    ensures forall x :: multiset(chips)[x] == if HasVisibleChar(x) then multiset(skills)[x] else 0
  {
    FilterMultiplicity(skills, Shown);
    forall s | true ensures Shown(s) <==> HasVisibleChar(s) {
      ShownIffVisible(s);
    }
    Filter(skills, Shown)
  }

  /** Skills that went through the skills box are all shown, unchanged and in order. */
  lemma CleanSkillsAllShown(skills: seq<string>)
    requires forall i :: 0 <= i < |skills| ==> IsCleanSkill(skills[i])
    ensures DisplayedSkills(skills) == skills
  {
    forall i | 0 <= i < |skills| ensures Shown(skills[i]) {
      assert Trim(skills[i]) == skills[i];
    }
  }

  /** Whatever is typed in the skills box, every skill it produces appears as a chip. */
  lemma SkillsBoxAllShown(d: ResumeData, text: string)
    ensures var r := UpdateField(d, SetSkills(SkillsText(text)));
            DisplayedSkills(r.skills) == r.skills
  {
    UpdateFieldSkills(d, SkillsText(text));
    CleanSkillsAllShown(NormalizeSkillText(text));
  }

  // ---------------------------------------------------------------------------
  // The rendered page

  datatype Block =
    | Header(name: string, contacts: seq<string>, links: seq<string>)
    | SummaryBlock(text: string)
    | WorkBlock(jobs: seq<WorkLine>)
    | EducationBlock(schools: seq<EducationLine>)
    | SkillsBlock(chips: seq<string>)
    | CustomBlock(title: string, content: string)
    | QrBlock(url: string)

  datatype Page = Page(style: string, blocks: seq<Block>)

  /** The value of an optional field when it is truthy, as a list of zero or one item. */
  function Present(o: Option<string>): (items: seq<string>)
    ensures Truthy(o) ==> items == [o.value]
    ensures !Truthy(o) ==> items == []
  {
    if Truthy(o) then [o.value] else []
  }

  /** The heading: the full name, or "Your Name" when there is none. */
  function HeaderName(d: ResumeData): (name: string)
    ensures Truthy(d.full_name) ==> name == d.full_name.value
    ensures !Truthy(d.full_name) ==> name == "Your Name"
  {
    OrElse(d.full_name, "Your Name")
  }

  /** The header shows the name, the truthy contact fields and the truthy links; the
      portfolio link is shown as stored, not normalised. */
  function HeaderBlock(d: ResumeData): Block
  {
    Header(HeaderName(d), Present(d.email) + Present(d.phone) + Present(d.location),
           Present(d.linkedin_url) + Present(d.portfolio_url))
  }

  function CustomBlocks(cs: seq<CustomSection>): (bs: seq<Block>)
    ensures |bs| == |cs|
    ensures forall i :: 0 <= i < |cs| ==> bs[i] == CustomBlock(cs[i].title, cs[i].content)
  {
    seq(|cs|, i requires 0 <= i < |cs| => CustomBlock(cs[i].title, cs[i].content))
  }

  function WorkLines(ws: seq<WorkExperience>): (lines: seq<WorkLine>)
    ensures |lines| == |ws|
    ensures forall i :: 0 <= i < |ws| ==> lines[i] == WorkEntry(ws[i])
  {
    seq(|ws|, i requires 0 <= i < |ws| => WorkEntry(ws[i]))
  }

  function EducationLines(es: seq<Education>): (lines: seq<EducationLine>)
    ensures |lines| == |es|
    ensures forall i :: 0 <= i < |es| ==> lines[i] == EducationEntry(es[i])
  {
    seq(|es|, i requires 0 <= i < |es| => EducationEntry(es[i]))
  }

  /** A block shown only under condition `c`. */
  function Optional(c: bool, b: Block): seq<Block>
  {
    if c then [b] else []
  }

  function SummaryPart(d: ResumeData): seq<Block>
  {
    Optional(Truthy(d.summary), SummaryBlock(OrElse(d.summary, "")))
  }

  function WorkPart(d: ResumeData): seq<Block>
  {
    Optional(|d.work_experience| > 0, WorkBlock(WorkLines(d.work_experience)))
  }

  function EducationPart(d: ResumeData): seq<Block>
  {
    Optional(|d.education| > 0, EducationBlock(EducationLines(d.education)))
  }

  function SkillsPart(d: ResumeData): seq<Block>
  {
    Optional(|d.skills| > 0, SkillsBlock(DisplayedSkills(d.skills)))
  }

  function QrPart(d: ResumeData): seq<Block>
  {
    Optional(PortfolioUrl(d.portfolio_url) != "", QrBlock(PortfolioUrl(d.portfolio_url)))
  }

  /** The blocks of the preview, top to bottom. */
  function Blocks(d: ResumeData): seq<Block>
  {
    [HeaderBlock(d)] + SummaryPart(d) + WorkPart(d) + EducationPart(d) + SkillsPart(d)
    + CustomBlocks(d.custom_sections) + QrPart(d)
  }

  /** The preview: the template's background and the blocks. */
  function Render(d: ResumeData): (p: Page)
    ensures p.style == TemplateStyle(d.template_type)
    ensures |p.blocks| >= 1 && p.blocks[0] == HeaderBlock(d)
  {
    Page(TemplateStyle(d.template_type), Blocks(d))
  }

  // ---------------------------------------------------------------------------
  // Which blocks appear

  datatype Kind = HeaderKind | SummaryKind | WorkKind | EducationKind | SkillsKind | CustomKind | QrKind

  function KindOf(b: Block): Kind
  {
    match b
    case Header(_, _, _) => HeaderKind
    case SummaryBlock(_) => SummaryKind
    case WorkBlock(_) => WorkKind
    case EducationBlock(_) => EducationKind
    case SkillsBlock(_) => SkillsKind
    case CustomBlock(_, _) => CustomKind
    case QrBlock(_) => QrKind
  }

  /** Some block of the list is of kind `k`. */
  predicate Shows(bs: seq<Block>, k: Kind)
    decreases |bs|
  {
    bs != [] && (KindOf(bs[0]) == k || Shows(bs[1..], k))
  }

  lemma {:induction false} ShowsAppend(a: seq<Block>, b: seq<Block>, k: Kind)
    ensures Shows(a + b, k) <==> Shows(a, k) || Shows(b, k)
    decreases |a|
  {
    if a == [] {
      assert a + b == b;
    } else {
      assert (a + b)[1..] == a[1..] + b;
      ShowsAppend(a[1..], b, k);
    }
  }

  lemma ShowsOne(b: Block, k: Kind)
    ensures Shows([b], k) <==> KindOf(b) == k
  {
    assert [b][1..] == [];
  }

  lemma ShowsOptional(c: bool, b: Block, k: Kind)
    ensures Shows(Optional(c, b), k) <==> c && KindOf(b) == k
  {
    ShowsOne(b, k);
  }

  lemma {:induction false} ShowsCustom(cs: seq<CustomSection>, k: Kind)
    ensures Shows(CustomBlocks(cs), k) <==> |cs| > 0 && k == CustomKind
    decreases |cs|
  {
    if cs != [] {
      ShowsCustom(cs[1..], k);
      assert CustomBlocks(cs)[1..] == CustomBlocks(cs[1..]);
    }
  }

  /** A kind shows in the page exactly when it shows in one of its parts. */
  lemma ShowsInParts(d: ResumeData, k: Kind)
    ensures Shows(Blocks(d), k) <==>
      Shows([HeaderBlock(d)], k) || Shows(SummaryPart(d), k) || Shows(WorkPart(d), k) || Shows(EducationPart(d), k)
      || Shows(SkillsPart(d), k) || Shows(CustomBlocks(d.custom_sections), k) || Shows(QrPart(d), k)
  {
    var h := [HeaderBlock(d)];
    ShowsAppend(h + SummaryPart(d) + WorkPart(d) + EducationPart(d) + SkillsPart(d) + CustomBlocks(d.custom_sections), QrPart(d), k);
    ShowsAppend(h + SummaryPart(d) + WorkPart(d) + EducationPart(d) + SkillsPart(d), CustomBlocks(d.custom_sections), k);
    ShowsAppend(h + SummaryPart(d) + WorkPart(d) + EducationPart(d), SkillsPart(d), k);
    ShowsAppend(h + SummaryPart(d) + WorkPart(d), EducationPart(d), k);
    ShowsAppend(h + SummaryPart(d), WorkPart(d), k);
    ShowsAppend(h, SummaryPart(d), k);
  }

  /** The summary, experience, education and skills sections appear exactly when their data is
      non-empty (the skills section even when every chip is filtered out); custom blocks appear
      when there are custom sections; the QR block exactly when the portfolio link is non-empty. */
  lemma SectionsShownIff(d: ResumeData, k: Kind)
    ensures Shows(Blocks(d), k) <==>
      match k
      case HeaderKind => true
      case SummaryKind => Truthy(d.summary)
      case WorkKind => |d.work_experience| > 0
      case EducationKind => |d.education| > 0
      case SkillsKind => |d.skills| > 0
      case CustomKind => |d.custom_sections| > 0
      case QrKind => Truthy(d.portfolio_url)
  {
    ShowsInParts(d, k);
    LeadingPartsShowTheirKind(d, k);
    TrailingPartsShowTheirKind(d, k);
  }

  /** The header and the summary, experience and education parts hold blocks of their own kind
      only, and hold one exactly when their data is present. */
  lemma LeadingPartsShowTheirKind(d: ResumeData, k: Kind)
    ensures Shows([HeaderBlock(d)], k) <==> k == HeaderKind
    ensures Shows(SummaryPart(d), k) <==> k == SummaryKind && Truthy(d.summary)
    ensures Shows(WorkPart(d), k) <==> k == WorkKind && |d.work_experience| > 0
    ensures Shows(EducationPart(d), k) <==> k == EducationKind && |d.education| > 0
  {
    ShowsOne(HeaderBlock(d), k);
    ShowsOptional(Truthy(d.summary), SummaryBlock(OrElse(d.summary, "")), k);
    ShowsOptional(|d.work_experience| > 0, WorkBlock(WorkLines(d.work_experience)), k);
    ShowsOptional(|d.education| > 0, EducationBlock(EducationLines(d.education)), k);
  }

  /** The skills, custom and QR parts hold blocks of their own kind only, and hold one exactly
      when their data is present. */
  lemma TrailingPartsShowTheirKind(d: ResumeData, k: Kind)
    ensures Shows(SkillsPart(d), k) <==> k == SkillsKind && |d.skills| > 0
    ensures Shows(CustomBlocks(d.custom_sections), k) <==> k == CustomKind && |d.custom_sections| > 0
    ensures Shows(QrPart(d), k) <==> k == QrKind && Truthy(d.portfolio_url)
  {
    ShowsOptional(|d.skills| > 0, SkillsBlock(DisplayedSkills(d.skills)), k);
    ShowsCustom(d.custom_sections, k);
    ShowsOptional(PortfolioUrl(d.portfolio_url) != "", QrBlock(PortfolioUrl(d.portfolio_url)), k);
  }

  /** The custom blocks are the custom sections, one each, in collection order. */
  lemma CustomBlocksInOrder(d: ResumeData)
    ensures Filter(Blocks(d), IsCustomBlock) == CustomBlocks(d.custom_sections)
  {
    var h := [HeaderBlock(d)];
    var cu := CustomBlocks(d.custom_sections);
    FilterAppend(h + SummaryPart(d) + WorkPart(d) + EducationPart(d) + SkillsPart(d) + cu, QrPart(d), IsCustomBlock);
    FilterAppend(h + SummaryPart(d) + WorkPart(d) + EducationPart(d) + SkillsPart(d), cu, IsCustomBlock);
    FilterAppend(h + SummaryPart(d) + WorkPart(d) + EducationPart(d), SkillsPart(d), IsCustomBlock);
    FilterAppend(h + SummaryPart(d) + WorkPart(d), EducationPart(d), IsCustomBlock);
    FilterAppend(h + SummaryPart(d), WorkPart(d), IsCustomBlock);
    FilterAppend(h, SummaryPart(d), IsCustomBlock);
    OtherPartsNotCustom(d);
  }

  /** Only the custom part holds custom blocks. */
  lemma OtherPartsNotCustom(d: ResumeData)
    ensures Filter([HeaderBlock(d)], IsCustomBlock) == []
    ensures Filter(SummaryPart(d), IsCustomBlock) == []
    ensures Filter(WorkPart(d), IsCustomBlock) == []
    ensures Filter(EducationPart(d), IsCustomBlock) == []
    ensures Filter(SkillsPart(d), IsCustomBlock) == []
    ensures Filter(QrPart(d), IsCustomBlock) == []
    ensures Filter(CustomBlocks(d.custom_sections), IsCustomBlock) == CustomBlocks(d.custom_sections)
  {
  }

  predicate IsCustomBlock(b: Block)
  {
    b.CustomBlock?
  }

  /** A blank document shows only its header, named "Your Name", on the template's background. */
  lemma BlankResumePreview(id: string, title: string, t: Template)
    ensures Render(BlankResume(id, title, t)) == Page(TemplateStyle(t), [Header("Your Name", [], [])])
  {
    var b := BlankResume(id, title, t);
    assert HeaderBlock(b) == Header("Your Name", [], []);
    assert CustomBlocks(b.custom_sections) == [];
    assert Blocks(b) == [HeaderBlock(b)] + [] + [] + [] + [] + [] + [];
  }

  /** A skills list holding only blank entries still gets its (empty) skills section. */
  lemma BlankSkillsSectionShown(d: ResumeData)
    requires d.skills == ["  "]
    ensures SkillsBlock([]) in Blocks(d)
  {
    assert !Shown("  ") by {
      ShownIffVisible("  ");
    }
    assert DisplayedSkills(d.skills) == [];
  }
}
