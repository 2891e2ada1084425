/** The tips panel: a fixed list of rules read in order over the document,
    each contributing zero or more (tone, message) pairs. `Tips` is the
    concatenation the rules describe; `GenerateTips` builds the same list by
    successive appends, with one loop over the work-experience entries. */
module ResumeTips {
  import opened Resume
  import opened Text
  import opened Sequences

  datatype Tone = Success | Warning

  /** Which message a tip carries; `Wording` gives its text. The detail
      warning carries the 1-based position of the entry it is about. */
  datatype Message =
    | AddName | AddContact | ExpandSummary | AddSummary
    | AddExperience | HasExperience | AddDetail(entry: nat)
    | AddEducation | HasEducation
    | NoSkills | FewSkills | ManySkills
    | AddLinkedin | HasPortfolio
    | ItTemplate | MarketingTemplate | DesignTemplate | ProfessionalTemplate
    | Comprehensive

  datatype Tip = Tip(tone: Tone, message: Message)

  const DetailPrefix := "Add more details to work experience #"
  const DetailSuffix := " - include achievements and responsibilities"

  /** The wording shown for each message. */
  function Wording(m: Message): string
  {
    match m
    case AddName => "Add your full name to personalize your resume"
    case AddContact => "Include contact information so employers can reach you"
    case ExpandSummary => "Expand your professional summary (aim for 2-3 sentences)"
    case AddSummary => "Add a professional summary to introduce yourself"
    case AddExperience => "Add your work experience to showcase your career"
    case HasExperience => "Great! You've added work experience"
    case AddDetail(k) => DetailPrefix + NatToString(k) + DetailSuffix
    case AddEducation => "Add your educational background"
    case HasEducation => "Education section looks good!"
    case NoSkills => "List your key skills and competencies"
    case FewSkills => "Add more skills - aim for 5-10 relevant skills"
    case ManySkills => "Good range of skills listed!"
    case AddLinkedin => "Add your LinkedIn profile to boost credibility"
    case HasPortfolio => "Portfolio link added - great for showcasing work!"
    case ItTemplate => "IT template selected - perfect for technical roles"
    case MarketingTemplate => "Marketing template - great for creative impact!"
    case DesignTemplate => "Design template - showcases your creative flair"
    case ProfessionalTemplate => "Professional template - versatile for any role"
    case Comprehensive => "Your resume is looking comprehensive!"
  }

  const NameTip := Tip(Warning, AddName)
  const ContactTip := Tip(Warning, AddContact)
  const ExpandSummaryTip := Tip(Warning, ExpandSummary)
  const AddSummaryTip := Tip(Warning, AddSummary)
  const AddExperienceTip := Tip(Warning, AddExperience)
  const HasExperienceTip := Tip(Success, HasExperience)
  const AddEducationTip := Tip(Warning, AddEducation)
  const HasEducationTip := Tip(Success, HasEducation)
  const NoSkillsTip := Tip(Warning, NoSkills)
  const FewSkillsTip := Tip(Warning, FewSkills)
  const ManySkillsTip := Tip(Success, ManySkills)
  const LinkedinTip := Tip(Warning, AddLinkedin)
  const PortfolioTip := Tip(Success, HasPortfolio)
  const ItTemplateTip := Tip(Success, ItTemplate)
  const MarketingTemplateTip := Tip(Success, MarketingTemplate)
  const DesignTemplateTip := Tip(Success, DesignTemplate)
  const ProfessionalTemplateTip := Tip(Success, ProfessionalTemplate)
  const ComprehensiveTip := Tip(Success, Comprehensive)

  // ---------------------------------------------------------------------------
  // Decimal numerals, for the entry number in a detail warning

  function DigitChar(n: nat): (c: char)
    requires n < 10
    ensures '0' <= c <= '9'
  {
    "0123456789"[n]
  }

  function DigitValue(c: char): nat
  {
    if '0' <= c <= '9' then (c - '0') as nat else 0
  }

  /** `${n}` for a natural number: its decimal digits, most significant first, without leading zeros. */
  function NatToString(n: nat): (s: string)
    ensures 1 <= |s|
    ensures forall i :: 0 <= i < |s| ==> '0' <= s[i] <= '9'
    decreases n
  {
    if n < 10 then [DigitChar(n)] else NatToString(n / 10) + [DigitChar(n % 10)]
  }

  /** The number a string of decimal digits denotes. */
  function ParseDigits(s: string): nat
    decreases |s|
  {
    if s == [] then 0 else 10 * ParseDigits(s[..|s| - 1]) + DigitValue(s[|s| - 1])
  }

  /** Reading back a numeral gives the number: numerals of different numbers differ. */
  lemma {:induction false} ParseNatToString(n: nat)
    ensures ParseDigits(NatToString(n)) == n
    decreases n
  {
    var s := NatToString(n);
    if n < 10 {
      assert s[..|s| - 1] == [];
    } else {
      ParseNatToString(n / 10);
      assert s[..|s| - 1] == NatToString(n / 10);
    }
  }

  // ---------------------------------------------------------------------------
  // The detail warnings of the work-experience rule

  /** An entry needs more detail when its description is empty or shorter than 50 UTF-16 units. */
  predicate Thin(w: WorkExperience)
  {
    w.description == "" || Utf16Length(w.description) < 50
  }

  /** The warning for the entry at 1-based position `k`. */
  function DetailTip(k: nat): Tip
  {
    Tip(Warning, AddDetail(k))
  }

  /** The tip is one of the per-entry detail warnings. */
  predicate IsDetail(t: Tip)
  {
    t.message.AddDetail?
  }

  /** The wording of a detail warning names its entry: it starts with the fixed prefix,
      and warnings about different entries read differently. */
  lemma DetailTextNamesEntry(j: nat, k: nat)
    ensures StartsWith(Wording(AddDetail(k)), DetailPrefix)
    ensures Wording(AddDetail(j)) == Wording(AddDetail(k)) <==> j == k
  {
    var mj := Wording(AddDetail(j));
    var mk := Wording(AddDetail(k));
    assert mk[..|DetailPrefix|] == DetailPrefix;
    if mj == mk {
      var sj := NatToString(j);
      var sk := NatToString(k);
      assert mj[|DetailPrefix|..|DetailPrefix| + |sj|] == sj;
      assert mk[|DetailPrefix|..|DetailPrefix| + |sk|] == sk;
      assert |sj| == |sk|;
      ParseNatToString(j);
      ParseNatToString(k);
    }
  }

  /** The 1-based positions of the thin entries among the first `n`, in increasing order. */
  function ThinPositions(ws: seq<WorkExperience>, n: nat): (ps: seq<nat>)
    requires n <= |ws|
    decreases n
  {
    if n == 0 then []
    else ThinPositions(ws, n - 1) + (if Thin(ws[n - 1]) then [n] else [])
  }

  /** The detail warnings for the first `n` entries, in entry order. */
  function DetailTips(ws: seq<WorkExperience>, n: nat): (r: seq<Tip>)
    requires n <= |ws|
    decreases n
  {
    if n == 0 then []
    else DetailTips(ws, n - 1) + (if Thin(ws[n - 1]) then [DetailTip(n)] else [])
  }

  // ---------------------------------------------------------------------------
  // The rules, group by group

  /** Name, contact and summary warnings. */
  function BasicTips(d: ResumeData): seq<Tip>
  {
    (if !Truthy(d.full_name) then [NameTip] else [])
    + (if !Truthy(d.email) || !Truthy(d.phone) then [ContactTip] else [])
    + (if Truthy(d.summary) && Utf16Length(d.summary.value) < 100 then [ExpandSummaryTip] else [])
    + (if !Truthy(d.summary) then [AddSummaryTip] else [])
  }

  /** One warning for no experience; otherwise one success and a detail warning per thin entry. */
  function ExperienceTips(ws: seq<WorkExperience>): seq<Tip>
  {
    if |ws| == 0 then [AddExperienceTip] else [HasExperienceTip] + DetailTips(ws, |ws|)
  }

  function EducationTip(d: ResumeData): Tip
  {
    if |d.education| == 0 then AddEducationTip else HasEducationTip
  }

  function SkillsTip(d: ResumeData): Tip
  {
    if |d.skills| == 0 then NoSkillsTip
    else if |d.skills| < 5 then FewSkillsTip
    else ManySkillsTip
  }

  /** The LinkedIn warning and the portfolio acknowledgement. */
  function SocialTips(d: ResumeData): seq<Tip>
  {
    (if !Truthy(d.linkedin_url) then [LinkedinTip] else [])
    + (if Truthy(d.portfolio_url) then [PortfolioTip] else [])
  }

  function TemplateTip(t: Template): Tip
  {
    match t
    case It => ItTemplateTip
    case Marketing => MarketingTemplateTip
    case Design => DesignTemplateTip
    case Professional => ProfessionalTemplateTip
  }

  predicate IsComprehensive(d: ResumeData)
  {
    |d.work_experience| > 0 && |d.education| > 0 && |d.skills| >= 5
  }

  function ClosingTips(d: ResumeData): seq<Tip>
  {
    if IsComprehensive(d) then [ComprehensiveTip] else []
  }

  /** `generateTips`: the rules' outputs concatenated in rule order. */
  function Tips(d: ResumeData): seq<Tip>
  {
    BasicTips(d) + ExperienceTips(d.work_experience) + [EducationTip(d)] + [SkillsTip(d)]
    + SocialTips(d) + [TemplateTip(d.template_type)] + ClosingTips(d)
  }

  // ---------------------------------------------------------------------------
  // The detail warnings, position by position

  /** The thin positions are increasing, and are exactly the 1-based positions of the thin entries. */
  lemma {:induction false} ThinPositionsExact(ws: seq<WorkExperience>, n: nat)
    requires n <= |ws|
    ensures forall i, j :: 0 <= i < j < |ThinPositions(ws, n)| ==> ThinPositions(ws, n)[i] < ThinPositions(ws, n)[j]
    ensures forall k :: k in ThinPositions(ws, n) <==> 1 <= k <= n && Thin(ws[k - 1])
    decreases n
  {
    if n > 0 {
      ThinPositionsExact(ws, n - 1);
      var p := ThinPositions(ws, n - 1);
      assert forall k :: k in p ==> k <= n - 1;
      if Thin(ws[n - 1]) {
        var q := p + [n];
        forall i, j | 0 <= i < j < |q| ensures q[i] < q[j] {
          if j == |p| {
            assert q[i] == p[i] && p[i] in p;
          }
        }
      }
    }
  }

  /** The detail warnings are the detail tips of the thin positions, one for one and in the same order. */
  lemma {:induction false} DetailTipsAtThinPositions(ws: seq<WorkExperience>, n: nat)
    requires n <= |ws|
    ensures |DetailTips(ws, n)| == |ThinPositions(ws, n)|
    ensures forall i :: 0 <= i < |DetailTips(ws, n)| ==> DetailTips(ws, n)[i] == DetailTip(ThinPositions(ws, n)[i])
    decreases n
  {
    if n > 0 {
      DetailTipsAtThinPositions(ws, n - 1);
    }
  }

  /** Every detail warning in the list is a detail tip. */
  lemma DetailTipsAreDetails(ws: seq<WorkExperience>, n: nat)
    requires n <= |ws|
    ensures forall t :: t in DetailTips(ws, n) ==> IsDetail(t)
  {
    DetailTipsAtThinPositions(ws, n);
  }

  // ---------------------------------------------------------------------------
  // The fixed messages

  // ---------------------------------------------------------------------------
  // Counting messages

  /** How many tips of the list carry message `m`. */
  function Count(tips: seq<Tip>, m: Message): (n: nat)
    ensures n <= |tips|
    decreases |tips|
  {
    if tips == [] then 0
    else Count(tips[..|tips| - 1], m) + (if tips[|tips| - 1].message == m then 1 else 0)
  }

  lemma CountOne(t: Tip, m: Message)
    ensures Count([t], m) == if t.message == m then 1 else 0
  {
    assert [t][..0] == [];
  }

  /** A tip pushed only under condition `c`. */
  lemma CountMaybe(c: bool, t: Tip, m: Message)
    ensures Count(if c then [t] else [], m) == if c && t.message == m then 1 else 0
  {
    if c {
      CountOne(t, m);
    }
  }

  /** Counting distributes over concatenation. */
  lemma {:induction false} CountAppend(a: seq<Tip>, b: seq<Tip>, m: Message)
    ensures Count(a + b, m) == Count(a, m) + Count(b, m)
    decreases |b|
  {
    if b == [] {
      assert a + b == a;
    } else {
      assert (a + b)[..|a + b| - 1] == a + b[..|b| - 1];
      CountAppend(a, b[..|b| - 1], m);
    }
  }

  /** The rule group that can emit message `m`, in the order the rules run. */
  function Group(m: Message): nat
  {
    match m
    case AddName | AddContact | ExpandSummary | AddSummary => 0
    case AddExperience | HasExperience | AddDetail(_) => 1
    case AddEducation | HasEducation => 2
    case NoSkills | FewSkills | ManySkills => 3
    case AddLinkedin | HasPortfolio => 4
    case ItTemplate | MarketingTemplate | DesignTemplate | ProfessionalTemplate => 5
    case Comprehensive => 6
  }

  /** When each message is due, rule by rule: the reference the generated list is checked against. */
  predicate Fires(d: ResumeData, m: Message)
  {
    match m
    case AddName => !Truthy(d.full_name)
    case AddContact => !Truthy(d.email) || !Truthy(d.phone)
    case ExpandSummary => Truthy(d.summary) && Utf16Length(d.summary.value) < 100
    case AddSummary => !Truthy(d.summary)
    case AddExperience => |d.work_experience| == 0
    case HasExperience => |d.work_experience| > 0
    case AddDetail(k) => 1 <= k <= |d.work_experience| && Thin(d.work_experience[k - 1])
    case AddEducation => |d.education| == 0
    case HasEducation => |d.education| > 0
    case NoSkills => |d.skills| == 0
    case FewSkills => 0 < |d.skills| < 5
    case ManySkills => |d.skills| >= 5
    case AddLinkedin => !Truthy(d.linkedin_url)
    case HasPortfolio => Truthy(d.portfolio_url)
    case ItTemplate => d.template_type == It
    case MarketingTemplate => d.template_type == Marketing
    case DesignTemplate => d.template_type == Design
    case ProfessionalTemplate => d.template_type == Professional
    case Comprehensive => IsComprehensive(d)
  }

  /** The loop emits one detail warning per thin entry among the first `n`, and nothing else. */
  lemma {:induction false} CountDetails(ws: seq<WorkExperience>, n: nat, m: Message)
    requires n <= |ws|
    ensures Count(DetailTips(ws, n), m) == if m.AddDetail? && 1 <= m.entry <= n && Thin(ws[m.entry - 1]) then 1 else 0
    decreases n
  {
    if n > 0 {
      CountDetails(ws, n - 1, m);
      CountAppend(DetailTips(ws, n - 1), if Thin(ws[n - 1]) then [DetailTip(n)] else [], m);
      if Thin(ws[n - 1]) {
        CountOne(DetailTip(n), m);
      }
    }
  }

  /** Four tips pushed one after the other, each under its own condition. */
  lemma CountFourMaybe(c1: bool, t1: Tip, c2: bool, t2: Tip, c3: bool, t3: Tip, c4: bool, t4: Tip, m: Message)
    ensures Count((if c1 then [t1] else []) + (if c2 then [t2] else []) + (if c3 then [t3] else []) + (if c4 then [t4] else []), m)
         == (if c1 && t1.message == m then 1 else 0) + (if c2 && t2.message == m then 1 else 0)
          + (if c3 && t3.message == m then 1 else 0) + (if c4 && t4.message == m then 1 else 0)
  {
    var a := if c1 then [t1] else [];
    var b := if c2 then [t2] else [];
    var c := if c3 then [t3] else [];
    var e := if c4 then [t4] else [];
    CountAppend(a + b + c, e, m);
    CountAppend(a + b, c, m);
    CountAppend(a, b, m);
    CountMaybe(c1, t1, m);
    CountMaybe(c2, t2, m);
    CountMaybe(c3, t3, m);
    CountMaybe(c4, t4, m);
  }

  lemma CountBasic(d: ResumeData, m: Message)
    ensures Count(BasicTips(d), m) == if Group(m) == 0 && Fires(d, m) then 1 else 0
  {
    if Group(m) == 0 {
      CountBasicOwn(d, m);
    } else {
      CountBasicOther(d, m);
    }
  }

  lemma CountBasicOwn(d: ResumeData, m: Message)
    requires Group(m) == 0
    ensures Count(BasicTips(d), m) == if Fires(d, m) then 1 else 0
  {
    CountFourMaybe(!Truthy(d.full_name), NameTip, !Truthy(d.email) || !Truthy(d.phone), ContactTip,
                   Truthy(d.summary) && Utf16Length(d.summary.value) < 100, ExpandSummaryTip,
                   !Truthy(d.summary), AddSummaryTip, m);
  }

  lemma CountBasicOther(d: ResumeData, m: Message)
    requires Group(m) != 0
    ensures Count(BasicTips(d), m) == 0
  {
    CountFourMaybe(!Truthy(d.full_name), NameTip, !Truthy(d.email) || !Truthy(d.phone), ContactTip,
                   Truthy(d.summary) && Utf16Length(d.summary.value) < 100, ExpandSummaryTip,
                   !Truthy(d.summary), AddSummaryTip, m);
  }

  lemma CountExperience(d: ResumeData, m: Message)
    ensures Count(ExperienceTips(d.work_experience), m) == if Group(m) == 1 && Fires(d, m) then 1 else 0
  {
    var ws := d.work_experience;
    if |ws| == 0 {
      CountOne(AddExperienceTip, m);
    } else {
      CountAppend([HasExperienceTip], DetailTips(ws, |ws|), m);
      CountOne(HasExperienceTip, m);
      CountDetails(ws, |ws|, m);
    }
  }

  lemma CountSocial(d: ResumeData, m: Message)
    ensures Count(SocialTips(d), m) == if Group(m) == 4 && Fires(d, m) then 1 else 0
  {
    CountAppend(if !Truthy(d.linkedin_url) then [LinkedinTip] else [],
                if Truthy(d.portfolio_url) then [PortfolioTip] else [], m);
    CountMaybe(!Truthy(d.linkedin_url), LinkedinTip, m);
    CountMaybe(Truthy(d.portfolio_url), PortfolioTip, m);
  }

  lemma CountSingles(d: ResumeData, m: Message)
    ensures Count([EducationTip(d)], m) == if Group(m) == 2 && Fires(d, m) then 1 else 0
    ensures Count([SkillsTip(d)], m) == if Group(m) == 3 && Fires(d, m) then 1 else 0
    ensures Count([TemplateTip(d.template_type)], m) == if Group(m) == 5 && Fires(d, m) then 1 else 0
    ensures Count(ClosingTips(d), m) == if Group(m) == 6 && Fires(d, m) then 1 else 0
  {
    CountOne(EducationTip(d), m);
    CountOne(SkillsTip(d), m);
    CountOne(TemplateTip(d.template_type), m);
    CountMaybe(IsComprehensive(d), ComprehensiveTip, m);
  }

  /** Every message occurs in the list exactly once when its rule fires, and not at all otherwise. */
  lemma TipsFireExactly(d: ResumeData, m: Message)
    ensures Count(Tips(d), m) == if Fires(d, m) then 1 else 0
  {
    var basic := BasicTips(d);
    var exp := ExperienceTips(d.work_experience);
    var ed := [EducationTip(d)];
    var sk := [SkillsTip(d)];
    var soc := SocialTips(d);
    var tp := [TemplateTip(d.template_type)];
    CountAppend(basic + exp + ed + sk + soc + tp, ClosingTips(d), m);
    CountAppend(basic + exp + ed + sk + soc, tp, m);
    CountAppend(basic + exp + ed + sk, soc, m);
    CountAppend(basic + exp + ed, sk, m);
    CountAppend(basic + exp, ed, m);
    CountAppend(basic, exp, m);
    CountBasic(d, m);
    CountExperience(d, m);
    CountSocial(d, m);
    CountSingles(d, m);
  }

  /** Exactly one experience tip and exactly one education tip. */
  lemma OneExperienceAndEducationTip(d: ResumeData)
    ensures Count(Tips(d), AddExperience) + Count(Tips(d), HasExperience) == 1
    ensures Count(Tips(d), AddEducation) + Count(Tips(d), HasEducation) == 1
  {
    TipsFireExactly(d, AddExperience);
    TipsFireExactly(d, HasExperience);
    TipsFireExactly(d, AddEducation);
    TipsFireExactly(d, HasEducation);
  }

  /** Exactly one skills tip, chosen by the number of skills. */
  lemma OneSkillsTip(d: ResumeData)
    ensures Count(Tips(d), NoSkills) + Count(Tips(d), FewSkills) + Count(Tips(d), ManySkills) == 1
  {
    TipsFireExactly(d, NoSkills);
    TipsFireExactly(d, FewSkills);
    TipsFireExactly(d, ManySkills);
  }

  /** Exactly one template tip. */
  lemma OneTemplateTip(d: ResumeData)
    ensures Count(Tips(d), ItTemplate) + Count(Tips(d), MarketingTemplate)
          + Count(Tips(d), DesignTemplate) + Count(Tips(d), ProfessionalTemplate) == 1
  {
    TipsFireExactly(d, ItTemplate);
    TipsFireExactly(d, MarketingTemplate);
    TipsFireExactly(d, DesignTemplate);
    TipsFireExactly(d, ProfessionalTemplate);
  }

  /** The two summary warnings never both appear. */
  lemma SummaryWarningsExclusive(d: ResumeData)
    ensures Count(Tips(d), ExpandSummary) + Count(Tips(d), AddSummary) <= 1
  {
    TipsFireExactly(d, ExpandSummary);
    TipsFireExactly(d, AddSummary);
  }

  /** The completeness acknowledgement, when due, closes the list. */
  lemma ComprehensiveLast(d: ResumeData)
    ensures IsComprehensive(d) <==> Count(Tips(d), Comprehensive) == 1
    ensures IsComprehensive(d) ==> Tips(d)[|Tips(d)| - 1] == ComprehensiveTip
  {
    TipsFireExactly(d, Comprehensive);
  }

  /** With some experience, the success comes right after the basic warnings and is followed by the
      detail warnings of the thin entries, in entry order. */
  lemma DetailWarningsInEntryOrder(d: ResumeData)
    requires |d.work_experience| > 0
    ensures var b := |BasicTips(d)|;
            var ps := ThinPositions(d.work_experience, |d.work_experience|);
            b + 1 + |ps| <= |Tips(d)| && Tips(d)[b] == HasExperienceTip
            && (forall i :: 0 <= i < |ps| ==> Tips(d)[b + 1 + i] == DetailTip(ps[i]))
  {
    var ws := d.work_experience;
    DetailTipsAtThinPositions(ws, |ws|);
    var b := |BasicTips(d)|;
    var ps := ThinPositions(ws, |ws|);
    var dt := DetailTips(ws, |ws|);
    var rest := [EducationTip(d)] + [SkillsTip(d)] + SocialTips(d) + [TemplateTip(d.template_type)] + ClosingTips(d);
    assert Tips(d) == BasicTips(d) + ([HasExperienceTip] + dt) + rest;
    forall i | 0 <= i < |ps| ensures Tips(d)[b + 1 + i] == DetailTip(ps[i]) {
      assert Tips(d)[b + 1 + i] == dt[i];
    }
  }

  /** A new professional document with nothing filled in gets exactly these eight tips. */
  lemma BlankResumeTips(id: string, title: string)
    ensures Tips(BlankResume(id, title, Professional))
         == [NameTip, ContactTip, AddSummaryTip, AddExperienceTip, AddEducationTip, NoSkillsTip, LinkedinTip, ProfessionalTemplateTip]
  {
  }

  // ---------------------------------------------------------------------------
  // `generateTips` as the source writes it: successive pushes onto one list,
  // one method per group of rules

  /** The name, contact and summary checks. */
  method PushBasicTips(d: ResumeData, tips: seq<Tip>) returns (r: seq<Tip>)
    ensures r == tips + BasicTips(d)
  {
    r := tips;
    if !Truthy(d.full_name) { r := r + [NameTip]; }
    if !Truthy(d.email) || !Truthy(d.phone) { r := r + [ContactTip]; }
    if Truthy(d.summary) && Utf16Length(d.summary.value) < 100 { r := r + [ExpandSummaryTip]; }
    if !Truthy(d.summary) { r := r + [AddSummaryTip]; }
  }

  /** The work-experience check, with its loop over the entries. */
  method PushExperienceTips(ws: seq<WorkExperience>, tips: seq<Tip>) returns (r: seq<Tip>)
    ensures r == tips + ExperienceTips(ws)
  {
    if |ws| == 0 {
      r := tips + [AddExperienceTip];
    } else {
      r := tips + [HasExperienceTip];
      var i := 0;
      while i < |ws|
        invariant 0 <= i <= |ws|
        invariant r == tips + [HasExperienceTip] + DetailTips(ws, i)
      {
        if Thin(ws[i]) {
          assert r + [DetailTip(i + 1)] == tips + [HasExperienceTip] + (DetailTips(ws, i) + [DetailTip(i + 1)]);
          r := r + [DetailTip(i + 1)];
        }
        i := i + 1;
      }
      assert r == tips + ([HasExperienceTip] + DetailTips(ws, |ws|));
    }
  }

  /** The education and skills checks. */
  method PushSectionTips(d: ResumeData, tips: seq<Tip>) returns (r: seq<Tip>)
    ensures r == tips + [EducationTip(d)] + [SkillsTip(d)]
  {
    if |d.education| == 0 { r := tips + [AddEducationTip]; }
    else { r := tips + [HasEducationTip]; }
    if |d.skills| == 0 { r := r + [NoSkillsTip]; }
    else if |d.skills| < 5 { r := r + [FewSkillsTip]; }
    else { r := r + [ManySkillsTip]; }
  }

  /** The LinkedIn, portfolio, template and completeness checks. */
  method PushClosingTips(d: ResumeData, tips: seq<Tip>) returns (r: seq<Tip>)
    ensures r == tips + SocialTips(d) + [TemplateTip(d.template_type)] + ClosingTips(d)
  {
    r := tips;
    if !Truthy(d.linkedin_url) { r := r + [LinkedinTip]; }
    if Truthy(d.portfolio_url) { r := r + [PortfolioTip]; }
    assert r == tips + SocialTips(d);
    match d.template_type {
      case It => r := r + [ItTemplateTip];
      case Marketing => r := r + [MarketingTemplateTip];
      case Design => r := r + [DesignTemplateTip];
      case Professional => r := r + [ProfessionalTemplateTip];
    }
    if |d.work_experience| > 0 && |d.education| > 0 && |d.skills| >= 5 {
      r := r + [ComprehensiveTip];
    }
  }

  /** `generateTips`: starts from an empty list and runs the rule groups in order. */
  method GenerateTips(d: ResumeData) returns (tips: seq<Tip>)
    ensures tips == Tips(d)
  {
    tips := [];
    tips := PushBasicTips(d, tips);
    assert tips == BasicTips(d);
    tips := PushExperienceTips(d.work_experience, tips);
    tips := PushSectionTips(d, tips);
    tips := PushClosingTips(d, tips);
  }
}
