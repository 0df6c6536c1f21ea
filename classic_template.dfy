/** The Classic template (components/templates/ClassicTemplate.tsx): a centred
    header and four sections in a fixed order. It takes no section order and
    never shows the projects or the website. */
module ClassicTemplate {
  import opened Types
  import opened Seqs

  /** One element of the header line under the name. */
  datatype HeaderItem =
    | Plain(text: string)
    | Separator
    | Link(text: string, href: string)

  /** The content of one item inside a section. */
  datatype Entry =
    | Paragraph(text: string)
    | Role(company: string, dates: string, title: string, location: string, bullets: seq<string>)
    | Study(institution: string, dates: string, degree: string, location: string)
    | SkillRow(caption: string, items: string)

  datatype Section = Section(title: string, entries: seq<Entry>)

  datatype Page = Page(name: string, header: seq<HeaderItem>, sections: seq<Section>)

  /** `{startDate} - {endDate}`. */
  function Dates(startDate: string, endDate: string): string
  {
    startDate + " - " + endDate
  }

  /** The header line: location, phone, email, then the two profile links
      under the fixed texts "LinkedIn" and "GitHub", separated by bars. Every
      element is present whatever the contact holds. */
  function Header(c: ContactInfo): (h: seq<HeaderItem>)
    ensures |h| == 9
    ensures forall i :: 0 <= i < 9 ==> (h[i] == Separator <==> i % 2 == 1)
    ensures h[0] == Plain(c.location)
    ensures h[2] == Link(c.phone, "tel:" + c.phone)
    ensures h[4] == Link(c.email, "mailto:" + c.email)
    ensures h[6] == Link("LinkedIn", "https://" + c.linkedin)
    ensures h[8] == Link("GitHub", "https://" + c.github)
  {
    [Plain(c.location), Separator,
     Link(c.phone, "tel:" + c.phone), Separator,
     Link(c.email, "mailto:" + c.email), Separator,
     Link("LinkedIn", "https://" + c.linkedin), Separator,
     Link("GitHub", "https://" + c.github)]
  }

  /** One role per experience entry: the company leads, the title follows. */
  function Roles(xs: seq<Experience>): (r: seq<Entry>)
    ensures |r| == |xs|
    ensures forall i :: 0 <= i < |xs| ==>
      r[i].Role? && r[i].company == xs[i].company && r[i].title == xs[i].title
      && r[i].location == xs[i].location && r[i].bullets == xs[i].description
      && r[i].dates == Dates(xs[i].startDate, xs[i].endDate)
  {
    Map(xs, RoleOf)
  }

  function RoleOf(e: Experience): Entry
  {
    Role(e.company, Dates(e.startDate, e.endDate), e.title, e.location, e.description)
  }

  /** One study per education entry, its location included. */
  function Studies(xs: seq<Education>): (r: seq<Entry>)
    ensures |r| == |xs|
    ensures forall i :: 0 <= i < |xs| ==>
      r[i].Study? && r[i].institution == xs[i].institution && r[i].degree == xs[i].degree
      && r[i].location == xs[i].location && r[i].dates == Dates(xs[i].startDate, xs[i].endDate)
  {
    Map(xs, StudyOf)
  }

  function StudyOf(e: Education): Entry
  {
    Study(e.institution, Dates(e.startDate, e.endDate), e.degree, e.location)
  }

  /** One row per skill group: the category followed by a colon, then the
      items string as typed. */
  function SkillRows(xs: seq<Skill>): (r: seq<Entry>)
    ensures |r| == |xs|
    ensures forall i :: 0 <= i < |xs| ==>
      r[i].SkillRow? && r[i].caption == xs[i].category + ":" && r[i].items == xs[i].items
  {
    Map(xs, SkillRowOf)
  }

  function SkillRowOf(s: Skill): Entry
  {
    SkillRow(s.category + ":", s.items)
  }

  function Render(d: ResumeData): (p: Page)
    ensures p.name == d.contact.name
    ensures |p.sections| == 4
    ensures p.sections[0] == Section("SUMMARY", [Paragraph(d.summary)])
    ensures p.header == Header(d.contact)
    ensures p.sections[1].title == "EXPERIENCE" && p.sections[1].entries == Roles(d.experience)
    ensures p.sections[2].title == "EDUCATION" && p.sections[2].entries == Studies(d.education)
    ensures p.sections[3].title == "SKILLS" && p.sections[3].entries == SkillRows(d.skills)
  {
    Page(d.contact.name, Header(d.contact),
      [Section("SUMMARY", [Paragraph(d.summary)]),
       Section("EXPERIENCE", Roles(d.experience)),
       Section("EDUCATION", Studies(d.education)),
       Section("SKILLS", SkillRows(d.skills))])
  }

  /** The projects and the website never reach the page: changing them
      changes nothing. */
  lemma ProjectsAndWebsiteNotShown(d: ResumeData, ps: seq<Project>, website: string)
    ensures Render(d.(projects := ps, contact := d.contact.(website := website))) == Render(d)
  {
    var other := d.(projects := ps, contact := d.contact.(website := website));
    assert other.contact.name == d.contact.name;
    assert Header(other.contact) == Header(d.contact);
    assert other.experience == d.experience && other.education == d.education && other.skills == d.skills;
  }
}
