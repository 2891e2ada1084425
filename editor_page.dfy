/** The two pure pieces of the editor page: turning a stored record into a
    resume document when it is loaded, and the file name a resume is
    exported under. */
module EditorPage {
  import opened Resume

  /** A resume row as the database returns it: the template as a free string,
      and each collection possibly missing (null). */
  datatype StoredResume = StoredResume(
    id: string,
    title: string,
    template_type: string,
    full_name: Option<string>,
    email: Option<string>,
    phone: Option<string>,
    location: Option<string>,
    linkedin_url: Option<string>,
    portfolio_url: Option<string>,
    summary: Option<string>,
    work_experience: Option<seq<WorkExperience>>,
    education: Option<seq<Education>>,
    skills: Option<seq<string>>,
    custom_sections: Option<seq<CustomSection>>,
    qr_code_data: Option<string>)

  /** `value || []` for a stored collection. */
  function OrEmpty<T>(o: Option<seq<T>>): (s: seq<T>)
    ensures o.None? ==> s == []
    ensures o.Some? ==> s == o.value
  {
    if o.Some? then o.value else []
  }

  /** The load transform: every scalar is copied, a missing collection becomes empty, a present
      one is passed through, and the template name is read as a template. */
  function Load(r: StoredResume): (d: ResumeData)
    ensures d.id == r.id && d.title == r.title && d.template_type == ParseTemplate(r.template_type)
    ensures d.full_name == r.full_name && d.email == r.email && d.phone == r.phone
    ensures d.location == r.location && d.linkedin_url == r.linkedin_url
    ensures d.portfolio_url == r.portfolio_url && d.summary == r.summary && d.qr_code_data == r.qr_code_data
    ensures d.work_experience == OrEmpty(r.work_experience) && d.education == OrEmpty(r.education)
    ensures d.skills == OrEmpty(r.skills) && d.custom_sections == OrEmpty(r.custom_sections)
  {
    ResumeData(r.id, r.title, ParseTemplate(r.template_type),
               r.full_name, r.email, r.phone, r.location, r.linkedin_url, r.portfolio_url, r.summary,
               OrEmpty(r.work_experience), OrEmpty(r.education), OrEmpty(r.skills), OrEmpty(r.custom_sections),
               r.qr_code_data)
  }

  /** A document written back as a row: every collection present, the template by name. */
  function Store(d: ResumeData): (r: StoredResume)
    ensures r.work_experience.Some? && r.education.Some? && r.skills.Some? && r.custom_sections.Some?
  {
    StoredResume(d.id, d.title, TemplateName(d.template_type),
                 d.full_name, d.email, d.phone, d.location, d.linkedin_url, d.portfolio_url, d.summary,
                 Some(d.work_experience), Some(d.education), Some(d.skills), Some(d.custom_sections),
                 d.qr_code_data)
  }

  /** A saved document loads back unchanged. */
  lemma LoadStore(d: ResumeData)
    ensures Load(Store(d)) == d
  {
    ParseTemplateName(d.template_type);
  }

  /** A row with every collection present and a known template name is exactly what its document stores. */
  lemma StoreLoad(r: StoredResume)
    requires r.work_experience.Some? && r.education.Some? && r.skills.Some? && r.custom_sections.Some?
    requires r.template_type in {"professional", "it", "marketing", "design"}
    ensures Store(Load(r)) == r
  {
  }

  /** Loading never fails on missing collections: a row with all of them null gives a document
      with all of them empty. */
  lemma LoadMissingCollections(r: StoredResume)
    requires r.work_experience.None? && r.education.None? && r.skills.None? && r.custom_sections.None?
    ensures var d := Load(r);
            d.work_experience == [] && d.education == [] && d.skills == [] && d.custom_sections == []
  {
  }

  const PdfExtension := ".pdf"
  const DefaultStem := "resume"

  /** `${resumeData?.title || "resume"}.pdf`. */
  function ExportFileName(title: Option<string>): (name: string)
    ensures |name| > |PdfExtension| && name[|name| - |PdfExtension|..] == PdfExtension
    ensures Truthy(title) ==> name == title.value + PdfExtension
    ensures !Truthy(title) ==> name == "resume.pdf"
  {
    var stem := OrElse(title, DefaultStem);
    assert (stem + PdfExtension)[|stem|..] == PdfExtension;
    stem + PdfExtension
  }

  /** Dropping the extension gives back the title when there is one, and "resume" otherwise:
      the stem is never empty. */
  lemma ExportFileNameStem(title: Option<string>)
    ensures var name := ExportFileName(title);
            name[..|name| - |PdfExtension|] == OrElse(title, DefaultStem) != ""
  {
    var name := ExportFileName(title);
    assert name[..|name| - |PdfExtension|] == OrElse(title, DefaultStem);
  }
}
