/** The edit transforms of the resume editor: skills normalisation, the
    field-level update every edit goes through, and add / update / remove by
    identifier on the three collections. Each is a total function from the
    current document to the next one. */
module ResumeEditor {
  import opened Resume
  import opened Text
  import opened Sequences

  // ---------------------------------------------------------------------------
  // Skills

  /** What `normalizeSkills` receives: the raw text of the skills box, or an array. */
  datatype SkillsInput = SkillsText(text: string) | SkillsList(items: seq<string>)

  /** `Boolean(s)` for a string. */
  predicate NonEmpty(s: string) { s != "" }

  /** A skill as the text box can reproduce it: non-empty, trimmed, without a comma. */
  predicate IsCleanSkill(s: string)
  {
    s != "" && IsTrimmed(s) && ',' !in s
  }

  predicate TrimmedWithoutComma(s: string)
  {
    IsTrimmed(s) && ',' !in s
  }

  /** `parts.map(s => s.trim())`. */
  function TrimAll(parts: seq<string>): (r: seq<string>)
    ensures |r| == |parts|
    ensures forall i :: 0 <= i < |r| ==> r[i] == Trim(parts[i])
  {
    seq(|parts|, i requires 0 <= i < |parts| => Trim(parts[i]))
  }

  /** A character no part holds is in no trimmed part either. */
  lemma TrimAllWithout(parts: seq<string>, c: char)
    requires forall i :: 0 <= i < |parts| ==> c !in parts[i]
    ensures forall i :: 0 <= i < |TrimAll(parts)| ==> c !in TrimAll(parts)[i]
  {
    forall i | 0 <= i < |parts| ensures c !in TrimAll(parts)[i] {
      TrimKeepsChars(parts[i]);
    }
  }

  /** What `normalizeSkills` filters: the array as given, or the text split on
      commas with every piece trimmed. */
  function Pieces(input: SkillsInput): (pieces: seq<string>)
    ensures input.SkillsList? ==> pieces == input.items
    ensures input.SkillsText? ==> |pieces| >= 1
  {
    match input
    case SkillsList(items) => items
    case SkillsText(text) => TrimAll(Split(text, ','))
  }

  /** `value.filter(Boolean)` for an array: the non-empty entries, in order,
      untrimmed, each kept as often as it occurs. */
  function NormalizeSkillList(items: seq<string>): (r: seq<string>)
    ensures forall i :: 0 <= i < |r| ==> r[i] != ""
    ensures IsSubsequence(r, items)
    ensures multiset(r) == multiset(items)[[] := 0]
  {
    DropEmptyMultiplicity(items);
    Filter(items, NonEmpty)
  }

  /** `value.split(",").map(s => s.trim()).filter(Boolean)` for a text: the
      non-empty trimmed pieces, in order, each kept as often as it occurs; all
      of them are clean. */
  function NormalizeSkillText(text: string): (r: seq<string>)
    ensures forall i :: 0 <= i < |r| ==> IsCleanSkill(r[i])
    ensures IsSubsequence(r, TrimAll(Split(text, ',')))
    ensures multiset(r) == multiset(TrimAll(Split(text, ',')))[[] := 0]
  {
    var pieces := TrimAll(Split(text, ','));
    SplitPiecesFree(text, ',');
    TrimAllWithout(Split(text, ','), ',');
    assert forall i :: 0 <= i < |pieces| ==> TrimmedWithoutComma(pieces[i]);
    FilterPreserves(pieces, NonEmpty, TrimmedWithoutComma);
    DropEmptyMultiplicity(pieces);
    Filter(pieces, NonEmpty)
  }

  /** Filtering on `Boolean` removes every copy of `""` and keeps every copy of anything else. */
  lemma DropEmptyMultiplicity(s: seq<string>)
    ensures multiset(Filter(s, NonEmpty)) == multiset(s)[[] := 0]
  {
    FilterMultiplicity(s, NonEmpty);
    assert forall x :: multiset(Filter(s, NonEmpty))[x] == multiset(s)[[] := 0][x];
  }

  /** `normalizeSkills`: an array loses its empty entries and nothing else; a
      text is split on commas, each piece trimmed, and empty pieces dropped.
      No result is empty. */
  function NormalizeSkills(input: SkillsInput): (r: seq<string>)
    ensures forall i :: 0 <= i < |r| ==> r[i] != ""
    ensures input.SkillsList? ==> IsSubsequence(r, input.items) && multiset(r) == multiset(input.items)[[] := 0]
  {
    match input
    case SkillsList(items) => NormalizeSkillList(items)
    case SkillsText(text) => NormalizeSkillText(text)
  }

  /** For either kind of input, normalising drops exactly the empty pieces:
      every other piece stays, as often as it occurs and in its order. */
  lemma NormalizeSkillsDropsEmptyPieces(input: SkillsInput)
    ensures IsSubsequence(NormalizeSkills(input), Pieces(input))
    ensures multiset(NormalizeSkills(input)) == multiset(Pieces(input))[[] := 0]
  {
  }

  /** `normalizeSkills("a, b ,, c")` is `["a", "b", "c"]`: the spaces around each
      piece go, and the empty piece between the two commas is dropped. */
  lemma NormalizeSkillsExample()
    ensures NormalizeSkills(SkillsText("a, b ,, c")) == ["a", "b", "c"]
  {
    ExampleSplit();
    ExampleTrim();
    ExampleFilter();
    NormalizeSkillTextUnfold("a, b ,, c");
  }

  lemma ExampleSplit()
    ensures Split("a, b ,, c", ',') == ["a", " b ", "", " c"]
  {
    ExampleSplitMiddle();
    SplitStepOn(',', " b ,, c", ", b ,, c", ["", " b ", "", " c"]);
    SplitStepOn('a', ", b ,, c", "a, b ,, c", ["a", " b ", "", " c"]);
  }

  lemma ExampleSplitMiddle()
    ensures Split(" b ,, c", ',') == [" b ", "", " c"]
  {
    ExampleSplitTail();
    SplitStepOn(' ', ",, c", " ,, c", [" ", "", " c"]);
    SplitStepOn('b', " ,, c", "b ,, c", ["b ", "", " c"]);
    SplitStepOn(' ', "b ,, c", " b ,, c", [" b ", "", " c"]);
  }

  lemma ExampleSplitTail()
    ensures Split(",, c", ',') == ["", "", " c"]
  {
    assert Split("", ',') == [""];
    SplitStepOn('c', "", "c", ["c"]);
    SplitStepOn(' ', "c", " c", [" c"]);
    SplitStepOn(',', " c", ", c", ["", " c"]);
    SplitStepOn(',', ", c", ",, c", ["", "", " c"]);
  }

  /** One step of a split, stated on the text with its character in front and on the expected pieces. */
  lemma SplitStepOn(c: char, s: string, cs: string, pieces: seq<string>)
    requires cs == [c] + s
    requires |Split(s, ',')| >= 1 && |pieces| >= 1
    requires c == ',' ==> pieces == [""] + Split(s, ',')
    requires c != ',' ==> pieces[0] == [c] + Split(s, ',')[0] && pieces[1..] == Split(s, ',')[1..]
    ensures Split(cs, ',') == pieces
  {
    SplitStep(c, s, ',');
  }

  lemma ExampleTrim()
    ensures TrimAll(["a", " b ", "", " c"]) == ["a", "b", "", "c"]
  {
    ExampleTrimA();
    ExampleTrimB();
    ExampleTrimC();
    TrimAllFour("a", " b ", "", " c", "a", "b", "", "c");
  }

  lemma ExampleTrimA()
    ensures Trim("a") == "a"
  {
    TrimVisibleChar('a');
  }

  lemma TrimVisibleChar(c: char)
    requires !IsWhitespace(c)
    ensures Trim([c]) == [c]
  {
    assert IsTrimmed([c]);
  }

  lemma ExampleTrimB()
    ensures Trim(" b ") == "b"
  {
    TrimSurroundingSpaces("b");
    assert " " + "b" + " " == " b ";
  }

  lemma ExampleTrimC()
    ensures Trim(" c") == "c"
  {
    TrimLeadingSpace("c");
  }

  lemma TrimAllFour(a: string, b: string, c: string, d: string, ta: string, tb: string, tc: string, td: string)
    requires Trim(a) == ta && Trim(b) == tb && Trim(c) == tc && Trim(d) == td
    ensures TrimAll([a, b, c, d]) == [ta, tb, tc, td]
  {
    TrimAllOfFour(a, b, c, d);
  }

  lemma TrimAllOfFour(a: string, b: string, c: string, d: string)
    ensures TrimAll([a, b, c, d]) == [Trim(a), Trim(b), Trim(c), Trim(d)]
  {
    var p := [a, b, c, d];
    var r := TrimAll(p);
    assert r[0] == Trim(p[0]) && r[1] == Trim(p[1]) && r[2] == Trim(p[2]) && r[3] == Trim(p[3]);
    FourElements(r, Trim(a), Trim(b), Trim(c), Trim(d));
  }

  lemma FourElements<T>(r: seq<T>, w: T, x: T, y: T, z: T)
    requires |r| == 4 && r[0] == w && r[1] == x && r[2] == y && r[3] == z
    ensures r == [w, x, y, z]
  {
  }

  lemma ExampleFilter()
    ensures Filter(["a", "b", "", "c"], NonEmpty) == ["a", "b", "c"]
  {
    var pieces := ["a", "b", "", "c"];
    assert pieces[1..] == ["b", "", "c"];
    assert pieces[1..][1..] == ["", "c"];
    assert pieces[1..][1..][1..] == ["c"];
  }

  /** Normalising an already normalised array returns it unchanged. */
  lemma NormalizeSkillsIdempotent(input: SkillsInput)
    ensures NormalizeSkills(SkillsList(NormalizeSkills(input))) == NormalizeSkills(input)
  {
  }

  /** `join(", ")` written as a join on "," of the pieces with a space put back in front. */
  function SpacedPieces(skills: seq<string>): (r: seq<string>)
    requires skills != []
    ensures |r| == |skills| && r[0] == skills[0]
    ensures forall i :: 1 <= i < |r| ==> r[i] == " " + skills[i]
  {
    [skills[0]] + seq(|skills| - 1, i requires 0 <= i < |skills| - 1 => " " + skills[i + 1])
  }

  lemma {:induction false} SpacedJoinTail(skills: seq<string>)
    requires skills != []
    ensures " " + Join(skills, ", ") == Join(seq(|skills|, i requires 0 <= i < |skills| => " " + skills[i]), ",")
    decreases |skills|
  {
    var spaced := seq(|skills|, i requires 0 <= i < |skills| => " " + skills[i]);
    if |skills| > 1 {
      SpacedJoinTail(skills[1..]);
      var rest := seq(|skills[1..]|, i requires 0 <= i < |skills[1..]| => " " + skills[1..][i]);
      assert spaced[1..] == rest;
    }
  }

  lemma SpacedJoin(skills: seq<string>)
    requires skills != []
    ensures Join(skills, ", ") == Join(SpacedPieces(skills), ",")
  {
    var p := SpacedPieces(skills);
    if |skills| > 1 {
      SpacedJoinTail(skills[1..]);
      assert p[1..] == seq(|skills[1..]|, i requires 0 <= i < |skills[1..]| => " " + skills[1..][i]);
    }
  }

  /** Splitting `skills.join(", ")` on commas and trimming every piece gives back the clean skills. */
  lemma SplitTrimJoined(skills: seq<string>)
    requires forall i :: 0 <= i < |skills| ==> IsCleanSkill(skills[i])
    ensures TrimAll(Split(Join(skills, ", "), ',')) == if skills == [] then [[]] else skills
  {
    if skills == [] {
      assert Split([], ',') == [[]];
      assert TrimAll([[]])[0] == Trim([]);
    } else {
      var pieces := SpacedPieces(skills);
      SpacedJoin(skills);
      PiecesWithoutComma(skills);
      SplitJoin(pieces, ',');
      assert Split(Join(skills, ", "), ',') == pieces;
      TrimSpacedPieces(skills);
    }
  }

  lemma PiecesWithoutComma(skills: seq<string>)
    requires skills != []
    requires forall i :: 0 <= i < |skills| ==> IsCleanSkill(skills[i])
    ensures forall i :: 0 <= i < |SpacedPieces(skills)| ==> ',' !in SpacedPieces(skills)[i]
  {
    var pieces := SpacedPieces(skills);
    forall i | 0 <= i < |pieces| ensures ',' !in pieces[i] {
      if i > 0 {
        assert pieces[i] == [' '] + skills[i];
      }
    }
  }

  lemma TrimSpacedPieces(skills: seq<string>)
    requires skills != []
    requires forall i :: 0 <= i < |skills| ==> IsCleanSkill(skills[i])
    ensures TrimAll(SpacedPieces(skills)) == skills
  {
    var pieces := SpacedPieces(skills);
    var t := TrimAll(pieces);
    forall i | 0 <= i < |pieces| ensures t[i] == skills[i] {
      if i > 0 {
        TrimLeadingSpace(skills[i]);
      }
    }
  }

  /** The skills box round trip: normalising the text `skills.join(", ")`
      gives back `skills` whenever every skill is clean. */
  lemma SkillsTextRoundTrip(skills: seq<string>)
    requires forall i :: 0 <= i < |skills| ==> IsCleanSkill(skills[i])
    ensures NormalizeSkills(SkillsText(Join(skills, ", "))) == skills
  {
    var text := Join(skills, ", ");
    SplitTrimJoined(skills);
    NormalizeSkillTextUnfold(text);
    if skills == [] {
      assert Filter([[]], NonEmpty) == [];
    } else {
      assert forall i :: 0 <= i < |skills| ==> NonEmpty(skills[i]);
    }
  }

  /** `NormalizeSkillText` is the filter of the trimmed pieces. */
  lemma NormalizeSkillTextUnfold(text: string)
    ensures NormalizeSkillText(text) == Filter(TrimAll(Split(text, ',')), NonEmpty)
  {
  }

  /** Text normalisation is idempotent through the box: re-normalising the
      joined result of a normalisation returns that result. */
  lemma NormalizeSkillsTextIdempotent(text: string)
    ensures var skills := NormalizeSkills(SkillsText(text));
      NormalizeSkills(SkillsText(Join(skills, ", "))) == skills
  {
    SkillsTextRoundTrip(NormalizeSkillText(text));
  }

  /** What the skills text box shows for a document: `skills.join(", ")`. */
  function SkillsBoxText(d: ResumeData): (t: string)
    ensures (forall i :: 0 <= i < |d.skills| ==> IsCleanSkill(d.skills[i])) ==>
      NormalizeSkills(SkillsText(t)) == d.skills
  {
    if forall i :: 0 <= i < |d.skills| ==> IsCleanSkill(d.skills[i]) then
      SkillsTextRoundTrip(d.skills);
      Join(d.skills, ", ")
    else
      Join(d.skills, ", ")
  }

  // ---------------------------------------------------------------------------
  // Field-level update of the document

  /** The optional string fields of the document. */
  datatype OptionalField = FullName | Email | Phone | Location | LinkedinUrl | PortfolioUrl | Summary | QrCodeData

  /** The keys of the document record. */
  datatype Key = IdKey | TitleKey | TemplateKey | OptionalKey(field: OptionalField)
               | WorkKey | EducationKey | SkillsKey | CustomKey

  /** The value stored under a key. */
  datatype Value =
    | Str(text: string)
    | Choice(template: Template)
    | Optional(opt: Option<string>)
    | Works(works: seq<WorkExperience>)
    | Schools(schools: seq<Education>)
    | SkillList(skills: seq<string>)
    | Sections(sections: seq<CustomSection>)

  function GetOptional(d: ResumeData, f: OptionalField): Option<string>
  {
    match f
    case FullName => d.full_name
    case Email => d.email
    case Phone => d.phone
    case Location => d.location
    case LinkedinUrl => d.linkedin_url
    case PortfolioUrl => d.portfolio_url
    case Summary => d.summary
    case QrCodeData => d.qr_code_data
  }

  /** `d[k]`: the document read through its keys. */
  function Get(d: ResumeData, k: Key): Value
  {
    match k
    case IdKey => Str(d.id)
    case TitleKey => Str(d.title)
    case TemplateKey => Choice(d.template_type)
    case OptionalKey(f) => Optional(GetOptional(d, f))
    case WorkKey => Works(d.work_experience)
    case EducationKey => Schools(d.education)
    case SkillsKey => SkillList(d.skills)
    case CustomKey => Sections(d.custom_sections)
  }

  /** `d` with key `k` cleared. `Without(r, k) == Without(d, k)` says that `r`
      and `d` differ at most under key `k`. */
  function Without(d: ResumeData, k: Key): ResumeData
  {
    match k
    case IdKey => d.(id := [])
    case TitleKey => d.(title := [])
    case TemplateKey => d.(template_type := Professional)
    case OptionalKey(f) => SetOptionalField(d, f, None)
    case WorkKey => d.(work_experience := [])
    case EducationKey => d.(education := [])
    case SkillsKey => d.(skills := [])
    case CustomKey => d.(custom_sections := [])
  }

  /** A document is determined by its value under one key together with
      everything else, so the two-part contract of `UpdateField` pins its
      result down completely. */
  lemma KeyDetermines(a: ResumeData, b: ResumeData, k: Key)
    requires Without(a, k) == Without(b, k)
    requires Get(a, k) == Get(b, k)
    ensures a == b
  {
    if k.OptionalKey? {
      match k.field
      case FullName =>
      case Email =>
      case Phone =>
      case Location =>
      case LinkedinUrl =>
      case PortfolioUrl =>
      case Summary =>
      case QrCodeData =>
    }
  }

  /** One call of `updateField(field, value)`, with the value typed by its field. */
  datatype Edit =
    | SetId(id: string)
    | SetTitle(title: string)
    | SetTemplate(template: Template)
    | SetOptional(field: OptionalField, value: Option<string>)
    | SetWorkExperience(works: seq<WorkExperience>)
    | SetEducation(schools: seq<Education>)
    | SetSkills(input: SkillsInput)
    | SetCustomSections(sections: seq<CustomSection>)
  {
    /** The key the edit writes. */
    function Target(): Key
    {
      match this
      case SetId(_) => IdKey
      case SetTitle(_) => TitleKey
      case SetTemplate(_) => TemplateKey
      case SetOptional(f, _) => OptionalKey(f)
      case SetWorkExperience(_) => WorkKey
      case SetEducation(_) => EducationKey
      case SetSkills(_) => SkillsKey
      case SetCustomSections(_) => CustomKey
    }

    /** The value the edit leaves under its key: the given value, except that
        skills are stored normalised. */
    function Stored(): Value
    {
      match this
      case SetId(s) => Str(s)
      case SetTitle(s) => Str(s)
      case SetTemplate(t) => Choice(t)
      case SetOptional(_, v) => Optional(v)
      case SetWorkExperience(w) => Works(w)
      case SetEducation(e) => Schools(e)
      case SetSkills(input) => SkillList(NormalizeSkills(input))
      case SetCustomSections(c) => Sections(c)
    }
  }

  function SetOptionalField(d: ResumeData, f: OptionalField, v: Option<string>): (r: ResumeData)
    ensures GetOptional(r, f) == v
    ensures forall g :: g != f ==> GetOptional(r, g) == GetOptional(d, g)
    ensures r.id == d.id && r.title == d.title && r.template_type == d.template_type
    ensures r.work_experience == d.work_experience && r.education == d.education
    ensures r.skills == d.skills && r.custom_sections == d.custom_sections
  {
    match f
    case FullName => d.(full_name := v)
    case Email => d.(email := v)
    case Phone => d.(phone := v)
    case Location => d.(location := v)
    case LinkedinUrl => d.(linkedin_url := v)
    case PortfolioUrl => d.(portfolio_url := v)
    case Summary => d.(summary := v)
    case QrCodeData => d.(qr_code_data := v)
  }

  /** Writing the skills touches the skills key only. */
  lemma SkillsWrite(d: ResumeData, skills: seq<string>)
    ensures Get(d.(skills := skills), SkillsKey) == SkillList(skills)
    ensures Without(d.(skills := skills), SkillsKey) == Without(d, SkillsKey)
  {
  }

  /** A second write of an optional field overwrites the first. */
  lemma SetOptionalOverwrites(d: ResumeData, f: OptionalField, v: Option<string>, w: Option<string>)
    ensures SetOptionalField(SetOptionalField(d, f, v), f, w) == SetOptionalField(d, f, w)
  {
    match f
    case FullName =>
    case Email =>
    case Phone =>
    case Location =>
    case LinkedinUrl =>
    case PortfolioUrl =>
    case Summary =>
    case QrCodeData =>
  }

  /** `updateField`: `{ ...data, [field]: value }`, with skills routed through
      `normalizeSkills`. The edited key holds the new value and nothing else changes. */
  function UpdateField(d: ResumeData, e: Edit): ResumeData
  {
    match e
    case SetId(s) => d.(id := s)
    case SetTitle(s) => d.(title := s)
    case SetTemplate(t) => d.(template_type := t)
    case SetOptional(f, v) => SetOptionalField(d, f, v)
    case SetWorkExperience(w) => d.(work_experience := w)
    case SetEducation(s) => d.(education := s)
    case SetSkills(input) => d.(skills := NormalizeSkills(input))
    case SetCustomSections(c) => d.(custom_sections := c)
  }

  /** The edited key holds the new value and nothing else changes. */
  lemma UpdateFieldWrites(d: ResumeData, e: Edit)
    ensures Get(UpdateField(d, e), e.Target()) == e.Stored()
    ensures Without(UpdateField(d, e), e.Target()) == Without(d, e.Target())
  {
    match e
    case SetOptional(f, v) => SetOptionalOverwrites(d, f, v, None);
    case SetSkills(input) => SkillsWrite(d, NormalizeSkills(input));
    case _ =>
  }

  /** Writing a key with the value it already holds changes nothing, and
      writing twice is writing once. */
  lemma UpdateFieldIdempotent(d: ResumeData, e: Edit)
    ensures UpdateField(UpdateField(d, e), e) == UpdateField(d, e)
    ensures Get(d, e.Target()) == e.Stored() ==> UpdateField(d, e) == d
  {
    var r := UpdateField(d, e);
    UpdateFieldWrites(d, e);
    UpdateFieldWrites(r, e);
    KeyDetermines(UpdateField(r, e), r, e.Target());
    if Get(d, e.Target()) == e.Stored() {
      KeyDetermines(r, d, e.Target());
    }
  }

  /** Typing text into the skills box and then re-submitting what the box
      shows afterwards leaves the skills as the first submission made them. */
  lemma SkillsBoxResubmit(d: ResumeData, text: string)
    ensures var r := UpdateField(d, SetSkills(SkillsText(text)));
      UpdateField(r, SetSkills(SkillsText(SkillsBoxText(r)))) == r
  {
    UpdateFieldSkills(d, SkillsText(text));
    ResubmitClean(d.(skills := NormalizeSkillText(text)));
  }

  /** Re-submitting the box text of a document whose skills are all clean changes nothing. */
  lemma ResubmitClean(r: ResumeData)
    requires forall i :: 0 <= i < |r.skills| ==> IsCleanSkill(r.skills[i])
    ensures UpdateField(r, SetSkills(SkillsText(SkillsBoxText(r)))) == r
  {
    UpdateFieldSkills(r, SkillsText(SkillsBoxText(r)));
  }

  /** A skills edit stores the normalised input. */
  lemma UpdateFieldSkills(d: ResumeData, input: SkillsInput)
    ensures UpdateField(d, SetSkills(input)) == d.(skills := NormalizeSkills(input))
  {
  }

  // ---------------------------------------------------------------------------
  // Entries: one field of one entry

  /** The value of one field of an entry. */
  datatype FieldValue = TextValue(text: string) | FlagValue(flag: bool)

  datatype WorkField = WorkIdField | Company | Position | WorkStart | WorkEnd | WorkCurrent | Description

  function GetWork(w: WorkExperience, f: WorkField): FieldValue
  {
    match f
    case WorkIdField => TextValue(w.id)
    case Company => TextValue(w.company)
    case Position => TextValue(w.position)
    case WorkStart => TextValue(w.startDate)
    case WorkEnd => TextValue(w.endDate)
    case WorkCurrent => FlagValue(w.current)
    case Description => TextValue(w.description)
  }

  /** `updateWorkExperience`'s `(field, value)` pair, with the value typed by its field. */
  datatype WorkEdit =
    | SetWorkId(id: string)
    | SetCompany(company: string)
    | SetPosition(position: string)
    | SetWorkStart(startDate: string)
    | SetWorkEnd(endDate: string)
    | SetWorkCurrent(current: bool)
    | SetDescription(description: string)
  {
    function Field(): WorkField
    {
      match this
      case SetWorkId(_) => WorkIdField
      case SetCompany(_) => Company
      case SetPosition(_) => Position
      case SetWorkStart(_) => WorkStart
      case SetWorkEnd(_) => WorkEnd
      case SetWorkCurrent(_) => WorkCurrent
      case SetDescription(_) => Description
    }

    function NewValue(): FieldValue
    {
      match this
      case SetWorkId(s) => TextValue(s)
      case SetCompany(s) => TextValue(s)
      case SetPosition(s) => TextValue(s)
      case SetWorkStart(s) => TextValue(s)
      case SetWorkEnd(s) => TextValue(s)
      case SetWorkCurrent(b) => FlagValue(b)
      case SetDescription(s) => TextValue(s)
    }
  }

  /** `{ ...exp, [field]: value }`: the named field takes the value, the others stay. */
  function ApplyWorkEdit(w: WorkExperience, e: WorkEdit): (r: WorkExperience)
    ensures GetWork(r, e.Field()) == e.NewValue()
    ensures forall f :: f != e.Field() ==> GetWork(r, f) == GetWork(w, f)
  {
    match e
    case SetWorkId(s) => w.(id := s)
    case SetCompany(s) => w.(company := s)
    case SetPosition(s) => w.(position := s)
    case SetWorkStart(s) => w.(startDate := s)
    case SetWorkEnd(s) => w.(endDate := s)
    case SetWorkCurrent(b) => w.(current := b)
    case SetDescription(s) => w.(description := s)
  }

  /** Only an edit of the `id` field changes an entry's identifier. */
  lemma WorkEditKeepsId(e: WorkEdit)
    ensures !e.SetWorkId? ==> forall w :: WorkId(ApplyWorkEdit(w, e)) == WorkId(w)
  {
  }

  datatype EducationField = EducationIdField | Institution | Degree | FieldOfStudy | EducationStart | EducationEnd | EducationCurrent

  function GetEducation(e: Education, f: EducationField): FieldValue
  {
    match f
    case EducationIdField => TextValue(e.id)
    case Institution => TextValue(e.institution)
    case Degree => TextValue(e.degree)
    case FieldOfStudy => TextValue(e.field)
    case EducationStart => TextValue(e.startDate)
    case EducationEnd => TextValue(e.endDate)
    case EducationCurrent => FlagValue(e.current)
  }

  /** `updateEducation`'s `(field, value)` pair, with the value typed by its field. */
  datatype EducationEdit =
    | SetEducationId(id: string)
    | SetInstitution(institution: string)
    | SetDegree(degree: string)
    | SetFieldOfStudy(field: string)
    | SetEducationStart(startDate: string)
    | SetEducationEnd(endDate: string)
    | SetEducationCurrent(current: bool)
  {
    function Field(): EducationField
    {
      match this
      case SetEducationId(_) => EducationIdField
      case SetInstitution(_) => Institution
      case SetDegree(_) => Degree
      case SetFieldOfStudy(_) => FieldOfStudy
      case SetEducationStart(_) => EducationStart
      case SetEducationEnd(_) => EducationEnd
      case SetEducationCurrent(_) => EducationCurrent
    }

    function NewValue(): FieldValue
    {
      match this
      case SetEducationId(s) => TextValue(s)
      case SetInstitution(s) => TextValue(s)
      case SetDegree(s) => TextValue(s)
      case SetFieldOfStudy(s) => TextValue(s)
      case SetEducationStart(s) => TextValue(s)
      case SetEducationEnd(s) => TextValue(s)
      case SetEducationCurrent(b) => FlagValue(b)
    }
  }

  /** `{ ...edu, [field]: value }`: the named field takes the value, the others stay. */
  function ApplyEducationEdit(e: Education, edit: EducationEdit): (r: Education)
    ensures GetEducation(r, edit.Field()) == edit.NewValue()
    ensures forall f :: f != edit.Field() ==> GetEducation(r, f) == GetEducation(e, f)
  {
    match edit
    case SetEducationId(s) => e.(id := s)
    case SetInstitution(s) => e.(institution := s)
    case SetDegree(s) => e.(degree := s)
    case SetFieldOfStudy(s) => e.(field := s)
    case SetEducationStart(s) => e.(startDate := s)
    case SetEducationEnd(s) => e.(endDate := s)
    case SetEducationCurrent(b) => e.(current := b)
  }

  /** Only an edit of the `id` field changes an entry's identifier. */
  lemma EducationEditKeepsId(edit: EducationEdit)
    ensures !edit.SetEducationId? ==> forall e :: EducationId(ApplyEducationEdit(e, edit)) == EducationId(e)
  {
  }

  datatype SectionField = SectionIdField | SectionTitle | SectionContent

  function GetSection(c: CustomSection, f: SectionField): string
  {
    match f
    case SectionIdField => c.id
    case SectionTitle => c.title
    case SectionContent => c.content
  }

  /** `updateCustomSection`'s `(field, value)` pair. */
  datatype SectionEdit = SectionEdit(field: SectionField, value: string)

  /** `{ ...section, [field]: value }`: the named field takes the value, the others stay. */
  function ApplySectionEdit(c: CustomSection, e: SectionEdit): (r: CustomSection)
    ensures GetSection(r, e.field) == e.value
    ensures forall f :: f != e.field ==> GetSection(r, f) == GetSection(c, f)
  {
    match e.field
    case SectionIdField => c.(id := e.value)
    case SectionTitle => c.(title := e.value)
    case SectionContent => c.(content := e.value)
  }

  // ---------------------------------------------------------------------------
  // Work experience

  /** `addWorkExperience`, with `crypto.randomUUID()` supplied as `newId`, not yet used in the collection. */
  function AddWorkExperience(d: ResumeData, newId: string): (r: ResumeData)
    requires !HasId(d.work_experience, WorkId, newId)
    ensures Without(r, WorkKey) == Without(d, WorkKey)
    ensures |r.work_experience| == |d.work_experience| + 1
    ensures r.work_experience[..|d.work_experience|] == d.work_experience
    ensures var w := r.work_experience[|d.work_experience|];
      && w.id == newId && w.company == "" && w.position == "" && w.startDate == ""
      && w.endDate == "" && !w.current && w.description == ""
    ensures UniqueIds(d.work_experience, WorkId) ==> UniqueIds(r.work_experience, WorkId)
  {
    var w := WorkExperience(newId, "", "", "", "", false, "");
    AppendFreshKeepsUnique(d.work_experience, WorkId, w);
    UpdateField(d, SetWorkExperience(d.work_experience + [w]))
  }

  /** `updateWorkExperience(id, field, value)`: same length and order; each
      entry carrying `id` gets the edit, every other entry is unchanged. */
  function UpdateWorkExperience(d: ResumeData, id: string, e: WorkEdit): (r: ResumeData)
    ensures Without(r, WorkKey) == Without(d, WorkKey)
    ensures |r.work_experience| == |d.work_experience|
    ensures forall i :: 0 <= i < |d.work_experience| && d.work_experience[i].id == id ==>
      r.work_experience[i] == ApplyWorkEdit(d.work_experience[i], e)
    ensures forall i :: 0 <= i < |d.work_experience| && d.work_experience[i].id != id ==>
      r.work_experience[i] == d.work_experience[i]
    ensures !HasId(d.work_experience, WorkId, id) ==> r == d
    ensures !e.SetWorkId? && UniqueIds(d.work_experience, WorkId) ==> UniqueIds(r.work_experience, WorkId)
  {
    var updated := UpdateById(d.work_experience, WorkId, id, w => ApplyWorkEdit(w, e));
    UpdateByIdFacts(d.work_experience, WorkId, id, w => ApplyWorkEdit(w, e));
    WorkEditKeepsId(e);
    d.(work_experience := updated)
  }

  /** `removeWorkExperience(id)`: no entry carries `id` afterwards, the others
      keep their relative order; with unique identifiers exactly one entry goes. */
  function RemoveWorkExperience(d: ResumeData, id: string): (r: ResumeData)
    ensures Without(r, WorkKey) == Without(d, WorkKey)
    ensures !HasId(r.work_experience, WorkId, id)
    ensures forall i :: 0 <= i < |d.work_experience| && d.work_experience[i].id != id ==>
      d.work_experience[i] in r.work_experience
    ensures IsSubsequence(r.work_experience, d.work_experience)
    ensures forall x :: multiset(r.work_experience)[x] == if x.id != id then multiset(d.work_experience)[x] else 0
    ensures !HasId(d.work_experience, WorkId, id) ==> r == d
    ensures UniqueIds(d.work_experience, WorkId) ==> UniqueIds(r.work_experience, WorkId)
    ensures UniqueIds(d.work_experience, WorkId) && HasId(d.work_experience, WorkId, id) ==>
      |r.work_experience| == |d.work_experience| - 1
  {
    var kept := RemoveById(d.work_experience, WorkId, id);
    RemoveByIdFacts(d.work_experience, WorkId, id);
    RemoveByIdMultiplicity(d.work_experience, WorkId, id);
    d.(work_experience := kept)
  }

  // ---------------------------------------------------------------------------
  // Education

  /** `addEducation`, with `crypto.randomUUID()` supplied as `newId`, not yet used in the collection. */
  function AddEducation(d: ResumeData, newId: string): (r: ResumeData)
    requires !HasId(d.education, EducationId, newId)
    ensures Without(r, EducationKey) == Without(d, EducationKey)
    ensures |r.education| == |d.education| + 1
    ensures r.education[..|d.education|] == d.education
    ensures var e := r.education[|d.education|];
      && e.id == newId && e.institution == "" && e.degree == "" && e.field == ""
      && e.startDate == "" && e.endDate == "" && !e.current
    ensures UniqueIds(d.education, EducationId) ==> UniqueIds(r.education, EducationId)
  {
    var e := Education(newId, "", "", "", "", "", false);
    AppendFreshKeepsUnique(d.education, EducationId, e);
    UpdateField(d, SetEducation(d.education + [e]))
  }

  /** `updateEducation(id, field, value)`: same length and order; each entry
      carrying `id` gets the edit, every other entry is unchanged. */
  function UpdateEducation(d: ResumeData, id: string, edit: EducationEdit): (r: ResumeData)
    ensures Without(r, EducationKey) == Without(d, EducationKey)
    ensures |r.education| == |d.education|
    ensures forall i :: 0 <= i < |d.education| && d.education[i].id == id ==>
      r.education[i] == ApplyEducationEdit(d.education[i], edit)
    ensures forall i :: 0 <= i < |d.education| && d.education[i].id != id ==>
      r.education[i] == d.education[i]
    ensures !HasId(d.education, EducationId, id) ==> r == d
    ensures !edit.SetEducationId? && UniqueIds(d.education, EducationId) ==> UniqueIds(r.education, EducationId)
  {
    var updated := UpdateById(d.education, EducationId, id, e => ApplyEducationEdit(e, edit));
    UpdateByIdFacts(d.education, EducationId, id, e => ApplyEducationEdit(e, edit));
    EducationEditKeepsId(edit);
    d.(education := updated)
  }

  /** `removeEducation(id)`: no entry carries `id` afterwards, the others keep
      their relative order; with unique identifiers exactly one entry goes. */
  function RemoveEducation(d: ResumeData, id: string): (r: ResumeData)
    ensures Without(r, EducationKey) == Without(d, EducationKey)
    ensures !HasId(r.education, EducationId, id)
    ensures forall i :: 0 <= i < |d.education| && d.education[i].id != id ==> d.education[i] in r.education
    ensures IsSubsequence(r.education, d.education)
    ensures forall x :: multiset(r.education)[x] == if x.id != id then multiset(d.education)[x] else 0
    ensures !HasId(d.education, EducationId, id) ==> r == d
    ensures UniqueIds(d.education, EducationId) ==> UniqueIds(r.education, EducationId)
    ensures UniqueIds(d.education, EducationId) && HasId(d.education, EducationId, id) ==>
      |r.education| == |d.education| - 1
  {
    var kept := RemoveById(d.education, EducationId, id);
    RemoveByIdFacts(d.education, EducationId, id);
    RemoveByIdMultiplicity(d.education, EducationId, id);
    d.(education := kept)
  }

  // ---------------------------------------------------------------------------
  // Custom sections

  /** `addCustomSection`, with `crypto.randomUUID()` supplied as `newId`, not yet used in the collection. */
  function AddCustomSection(d: ResumeData, newId: string): (r: ResumeData)
    requires !HasId(d.custom_sections, SectionId, newId)
    ensures Without(r, CustomKey) == Without(d, CustomKey)
    ensures |r.custom_sections| == |d.custom_sections| + 1
    ensures r.custom_sections[..|d.custom_sections|] == d.custom_sections
    ensures var c := r.custom_sections[|d.custom_sections|];
      c.id == newId && c.title == "Custom Section" && c.content == ""
    ensures UniqueIds(d.custom_sections, SectionId) ==> UniqueIds(r.custom_sections, SectionId)
  {
    var c := CustomSection(newId, "Custom Section", "");
    AppendFreshKeepsUnique(d.custom_sections, SectionId, c);
    UpdateField(d, SetCustomSections(d.custom_sections + [c]))
  }

  /** `updateCustomSection(id, field, value)`: same length and order; each
      section carrying `id` gets the edit, every other section is unchanged. */
  function UpdateCustomSection(d: ResumeData, id: string, e: SectionEdit): (r: ResumeData)
    ensures Without(r, CustomKey) == Without(d, CustomKey)
    ensures |r.custom_sections| == |d.custom_sections|
    ensures forall i :: 0 <= i < |d.custom_sections| && d.custom_sections[i].id == id ==>
      r.custom_sections[i] == ApplySectionEdit(d.custom_sections[i], e)
    ensures forall i :: 0 <= i < |d.custom_sections| && d.custom_sections[i].id != id ==>
      r.custom_sections[i] == d.custom_sections[i]
    ensures !HasId(d.custom_sections, SectionId, id) ==> r == d
    ensures e.field != SectionIdField && UniqueIds(d.custom_sections, SectionId) ==>
      UniqueIds(r.custom_sections, SectionId)
  {
    var updated := UpdateById(d.custom_sections, SectionId, id, c => ApplySectionEdit(c, e));
    UpdateByIdFacts(d.custom_sections, SectionId, id, c => ApplySectionEdit(c, e));
    d.(custom_sections := updated)
  }

  /** `removeCustomSection(id)`: no section carries `id` afterwards, the others
      keep their relative order; with unique identifiers exactly one goes. */
  function RemoveCustomSection(d: ResumeData, id: string): (r: ResumeData)
    ensures Without(r, CustomKey) == Without(d, CustomKey)
    ensures !HasId(r.custom_sections, SectionId, id)
    ensures forall i :: 0 <= i < |d.custom_sections| && d.custom_sections[i].id != id ==>
      d.custom_sections[i] in r.custom_sections
    ensures IsSubsequence(r.custom_sections, d.custom_sections)
    ensures forall x :: multiset(r.custom_sections)[x] == if x.id != id then multiset(d.custom_sections)[x] else 0
    ensures !HasId(d.custom_sections, SectionId, id) ==> r == d
    ensures UniqueIds(d.custom_sections, SectionId) ==> UniqueIds(r.custom_sections, SectionId)
    ensures UniqueIds(d.custom_sections, SectionId) && HasId(d.custom_sections, SectionId, id) ==>
      |r.custom_sections| == |d.custom_sections| - 1
  {
    var kept := RemoveById(d.custom_sections, SectionId, id);
    RemoveByIdFacts(d.custom_sections, SectionId, id);
    RemoveByIdMultiplicity(d.custom_sections, SectionId, id);
    d.(custom_sections := kept)
  }
}
