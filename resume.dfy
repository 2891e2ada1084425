/** The resume document model: one record per resume, with optional contact
    fields and three ordered collections of entries, each entry addressed by
    a string identifier. */
module Resume {

  datatype Option<T> = None | Some(value: T)

  /** The four templates a resume can be rendered with. */
  datatype Template = Professional | It | Marketing | Design

  datatype WorkExperience = WorkExperience(
    id: string,
    company: string,
    position: string,
    startDate: string,
    endDate: string,
    current: bool,
    description: string)

  datatype Education = Education(
    id: string,
    institution: string,
    degree: string,
    field: string,
    startDate: string,
    endDate: string,
    current: bool)

  datatype CustomSection = CustomSection(id: string, title: string, content: string)

  /** The root record. Absent contact fields are `None`; the collections are
      always present and may be empty. */
  datatype ResumeData = ResumeData(
    id: string,
    title: string,
    template_type: Template,
    full_name: Option<string>,
    email: Option<string>,
    phone: Option<string>,
    location: Option<string>,
    linkedin_url: Option<string>,
    portfolio_url: Option<string>,
    summary: Option<string>,
    work_experience: seq<WorkExperience>,
    education: seq<Education>,
    skills: seq<string>,
    custom_sections: seq<CustomSection>,
    qr_code_data: Option<string>)

  /** JavaScript truthiness of an optional string: present and not the empty string. */
  predicate Truthy(o: Option<string>)
  {
    o.Some? && o.value != ""
  }

  /** `o || fallback` for an optional string. */
  function OrElse(o: Option<string>, fallback: string): (r: string)
    ensures Truthy(o) ==> r == o.value
    ensures !Truthy(o) ==> r == fallback
  {
    if Truthy(o) then o.value else fallback
  }

  function WorkId(w: WorkExperience): string { w.id }
  function EducationId(e: Education): string { e.id }
  function SectionId(c: CustomSection): string { c.id }

  /** The template's stored name, as the database column holds it. */
  function TemplateName(t: Template): string
  {
    match t
    case Professional => "professional"
    case It => "it"
    case Marketing => "marketing"
    case Design => "design"
  }

  /** Reads a stored template name; any name other than the three special
      ones behaves as the professional template. */
  function ParseTemplate(name: string): (t: Template)
    ensures t != Professional ==> TemplateName(t) == name
  {
    if name == "it" then It
    else if name == "marketing" then Marketing
    else if name == "design" then Design
    else Professional
  }

  /** Every template survives being stored by name and read back. */
  lemma ParseTemplateName(t: Template)
    ensures ParseTemplate(TemplateName(t)) == t
  {
  }

  /** A document with every optional field absent and every collection empty. */
  function BlankResume(id: string, title: string, template: Template): (d: ResumeData)
    ensures d.id == id && d.title == title && d.template_type == template
    ensures d.full_name == None && d.email == None && d.phone == None && d.location == None
    ensures d.linkedin_url == None && d.portfolio_url == None && d.summary == None && d.qr_code_data == None
    ensures d.work_experience == [] && d.education == [] && d.skills == [] && d.custom_sections == []
  {
    ResumeData(id, title, template, None, None, None, None, None, None, None, [], [], [], [], None)
  }
}
