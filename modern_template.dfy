/** The Modern template (components/templates/ModernTemplate.tsx) as a pure
    function from the document and the section order to a page: a sidebar
    with the name, the contact list, Education and Skills in a fixed order,
    and a main column holding the remaining sections in the order given. */
module ModernTemplate {
  import opened Types
  import opened Seqs
  import opened Text

  /** An `<a>` element: its visible text and its `href`. */
  datatype Anchor = Anchor(text: string, href: string)

  /** One `<li>` of the contact list: the bold label, the value, and the
      link target when the value is wrapped in an anchor. */
  datatype ContactLine = ContactLine(field: ContactField, caption: string, text: string, href: Option<string>)

  /** The content of one item inside a section. */
  datatype Block =
    | Paragraph(text: string)
    | Job(title: string, dates: string, company: string, location: string, bullets: seq<string>)
    | School(institution: string, degree: string, dates: string)
    | ProjectEntry(name: string, link: Option<Anchor>, description: string)
    | SkillGroup(category: string, items: string)

  /** The `Section` component: a heading and its items. */
  datatype Section = Section(key: SectionKey, title: string, blocks: seq<Block>)

  datatype Page = Page(name: string, contact: seq<ContactLine>, sidebar: seq<Section>, main: seq<Section>)

  /** `{startDate} - {endDate}`. */
  function Dates(startDate: string, endDate: string): string
  {
    startDate + " - " + endDate
  }

  function JobBlock(e: Experience): Block
  {
    Job(e.title, Dates(e.startDate, e.endDate), e.company, e.location, e.description)
  }

  function SchoolBlock(e: Education): Block
  {
    School(e.institution, e.degree, Dates(e.startDate, e.endDate))
  }

  function SkillBlock(s: Skill): Block
  {
    SkillGroup(s.category, s.items)
  }

  /** The project link: shown only when the link is non-empty; the `href` is
      the link itself when it already starts with "http", otherwise the link
      behind "https://". */
  function ProjectLink(link: string): (a: Option<Anchor>)
    ensures a.None? <==> link == ""
    ensures a.Some? ==> a.value.text == link
    ensures a.Some? ==> "http" <= a.value.href && EndsWith(a.value.href, link)
    ensures a.Some? ==> (a.value.href == link <==> "http" <= link)
    ensures a.Some? && !("http" <= link) ==> a.value.href == "https://" + link
  {
    if link == "" then None
    else if "http" <= link then Some(Anchor(link, link))
    else
      var href := "https://" + link;
      assert href[|href| - |link|..] == link;
      assert href[..4] == "http";
      Some(Anchor(link, href))
  }

  function ProjectBlock(p: Project): Block
  {
    ProjectEntry(p.name, ProjectLink(p.link), p.description)
  }

  /** `SummarySection`: the summary paragraph, shown even when empty. */
  function SummarySection(d: ResumeData): (s: Section)
    ensures s.key == SummaryKey && s.title == "Professional Summary"
    ensures s.blocks == [Paragraph(d.summary)]
  {
    Section(SummaryKey, "Professional Summary", [Paragraph(d.summary)])
  }

  /** `ExperienceSection`: one job per entry, in list order, every bullet kept. */
  function ExperienceSection(d: ResumeData): (s: Section)
    ensures s.key == ExperienceKey && s.title == "Work Experience"
    ensures |s.blocks| == |d.experience|
    ensures forall i :: 0 <= i < |d.experience| ==>
      var e := d.experience[i];
      s.blocks[i] == Job(e.title, Dates(e.startDate, e.endDate), e.company, e.location, e.description)
  {
    Section(ExperienceKey, "Work Experience", Map(d.experience, JobBlock))
  }

  /** `ProjectsSection`: nothing at all when the list is empty. */
  function ProjectsSection(d: ResumeData): (s: Option<Section>)
    ensures s.Some? <==> |d.projects| > 0
    ensures s.Some? ==> s.value.key == ProjectsKey && s.value.title == "Projects"
    ensures s.Some? ==> |s.value.blocks| == |d.projects|
    ensures s.Some? ==> forall i :: 0 <= i < |d.projects| ==>
      var p := d.projects[i];
      s.value.blocks[i] == ProjectEntry(p.name, ProjectLink(p.link), p.description)
  {
    if |d.projects| > 0 then Some(Section(ProjectsKey, "Projects", Map(d.projects, ProjectBlock))) else None
  }

  /** `EducationSectionSidebar`. */
  function EducationSection(d: ResumeData): (s: Section)
    ensures s.key == EducationKey && s.title == "Education"
    ensures |s.blocks| == |d.education|
    ensures forall i :: 0 <= i < |d.education| ==>
      var e := d.education[i];
      s.blocks[i] == School(e.institution, e.degree, Dates(e.startDate, e.endDate))
  {
    Section(EducationKey, "Education", Map(d.education, SchoolBlock))
  }

  /** `SkillsSectionSidebar`: the items string is shown as typed. */
  function SkillsSection(d: ResumeData): (s: Section)
    ensures s.key == SkillsKey && s.title == "Skills"
    ensures |s.blocks| == |d.skills|
    ensures forall i :: 0 <= i < |d.skills| ==>
      s.blocks[i] == SkillGroup(d.skills[i].category, d.skills[i].items)
  {
    Section(SkillsKey, "Skills", Map(d.skills, SkillBlock))
  }

  /** The `sectionComponents` record: education and skills map to nothing,
      because they live in the sidebar. */
  function SectionComponent(d: ResumeData, k: SectionKey): (s: Option<Section>)
    ensures s.Some? ==> s.value.key == k
    ensures k == SummaryKey ==> s == Some(SummarySection(d))
    ensures k == ExperienceKey ==> s == Some(ExperienceSection(d))
    ensures k == ProjectsKey ==> s == ProjectsSection(d)
    ensures k == EducationKey || k == SkillsKey ==> s.None?
  {
    match k
    case SummaryKey => Some(SummarySection(d))
    case ExperienceKey => Some(ExperienceSection(d))
    case EducationKey => None
    case ProjectsKey => ProjectsSection(d)
    case SkillsKey => None
  }

  predicate IsSidebarKey(k: SectionKey)
  {
    k == EducationKey || k == SkillsKey
  }

  function NotSidebar(k: SectionKey): bool
  {
    !IsSidebarKey(k)
  }

  /** `mainContentOrder`: the order without education and skills. */
  function MainContentOrder(order: seq<SectionKey>): seq<SectionKey>
  {
    Filter(order, NotSidebar)
  }

  /** Each key occurs in the main content order as often as in the section
      order, except education and skills, which never occur. */
  lemma MainContentOrderCounts(order: seq<SectionKey>)
    ensures forall k :: multiset(MainContentOrder(order))[k] == if IsSidebarKey(k) then 0 else multiset(order)[k]
  {
    FilterCounts(order, NotSidebar);
  }

  /** `mainContentOrder.map(key => sectionComponents[key])`, where a null
      component renders nothing. */
  function Rendered(d: ResumeData, keys: seq<SectionKey>): (r: seq<Section>)
    ensures |r| <= |keys|
    ensures forall i :: 0 <= i < |r| ==> r[i].key in keys && SectionComponent(d, r[i].key) == Some(r[i])
  {
    if keys == [] then []
    else
      var head := SectionComponent(d, keys[0]);
      (if head.Some? then [head.value] else []) + Rendered(d, keys[1..])
  }

  /** Whether a key's component renders something in this document. */
  function HasComponent(d: ResumeData): SectionKey -> bool
  {
    k => SectionComponent(d, k).Some?
  }

  /** Whether a key shows up in the main column: summary and experience
      always, projects when there is at least one project. */
  function ShownInMain(d: ResumeData): SectionKey -> bool
  {
    k => k == SummaryKey || k == ExperienceKey || (k == ProjectsKey && |d.projects| > 0)
  }

  /** A key shows up in the main column exactly when it survives
      `mainContentOrder` and its component renders something. */
  lemma ShownInMainMeansRendered(d: ResumeData)
    ensures forall k :: ShownInMain(d)(k) == (NotSidebar(k) && HasComponent(d)(k))
  {
    forall k ensures ShownInMain(d)(k) == (NotSidebar(k) && HasComponent(d)(k)) {
      match k
      case SummaryKey =>
      case ExperienceKey =>
      case ProjectsKey =>
      case EducationKey =>
      case SkillsKey =>
    }
  }

  function SectionKeyOf(s: Section): SectionKey
  {
    s.key
  }

  function Keys(ss: seq<Section>): seq<SectionKey>
  {
    Map(ss, SectionKeyOf)
  }

  /** The fixed order of the contact list. */
  function ContactOrder(): seq<ContactField>
  {
    [ContactField.Location, Phone, Email, Linkedin, Github, Website]
  }

  function ContactLabel(f: ContactField): string
  {
    match f
    case Name => "Name:"
    case Email => "Email:"
    case Phone => "Phone:"
    case Linkedin => "LinkedIn:"
    case Github => "GitHub:"
    case Website => "Website:"
    case Location => "Location:"
  }

  /** The link target of a contact value: `mailto:` for the email, `https://`
      for the three profile links, none for location and phone. */
  function ContactHref(f: ContactField, value: string): Option<string>
  {
    match f
    case Email => Some("mailto:" + value)
    case Linkedin => Some("https://" + value)
    case Github => Some("https://" + value)
    case Website => Some("https://" + value)
    case _ => None
  }

  /** `{contact.f && <li>…</li>}`: one line when the field is non-empty. */
  function ContactItem(c: ContactInfo, f: ContactField): seq<ContactLine>
  {
    var v := ContactValue(c, f);
    if v == "" then [] else [ContactLine(f, ContactLabel(f), v, ContactHref(f, v))]
  }

  /** A contact line shows a non-empty field other than the name, under its
      own label; the email links with `mailto:`, the three profile links with
      `https://` in front of the value as typed, location and phone do not link. */
  predicate ShowsField(c: ContactInfo, l: ContactLine)
  {
    && l.field != Name
    && l.text == ContactValue(c, l.field) && l.text != ""
    && l.caption == ContactLabel(l.field)
    && (l.field == Email ==> l.href == Some("mailto:" + l.text))
    && (l.field == Linkedin || l.field == Github || l.field == Website ==> l.href == Some("https://" + l.text))
    && (l.field == Location || l.field == Phone ==> l.href == None)
  }

  /** The items for the fields `fs`, one conditional after the other. */
  function ContactItems(c: ContactInfo, fs: seq<ContactField>): (r: seq<ContactLine>)
    requires Name !in fs
    ensures forall i :: 0 <= i < |r| ==> ShowsField(c, r[i])
  {
    if fs == [] then [] else ContactItem(c, fs[0]) + ContactItems(c, fs[1..])
  }

  function Filled(c: ContactInfo): ContactField -> bool
  {
    f => ContactValue(c, f) != ""
  }

  function LineField(l: ContactLine): ContactField
  {
    l.field
  }

  lemma {:induction false} ContactItemsShowFilledFields(c: ContactInfo, fs: seq<ContactField>)
    requires Name !in fs
    ensures Map(ContactItems(c, fs), LineField) == Filter(fs, Filled(c))
  {
    if fs != [] {
      ContactItemsShowFilledFields(c, fs[1..]);
      MapAppend(ContactItem(c, fs[0]), ContactItems(c, fs[1..]), LineField);
    }
  }

  /** The six conditional list items of the contact section: exactly the
      non-empty fields other than the name, in the order location, phone,
      email, LinkedIn, GitHub, website, each one as `ShowsField` describes. */
  function ContactLines(c: ContactInfo): (lines: seq<ContactLine>)
    ensures Map(lines, LineField) == Filter(ContactOrder(), Filled(c))
    ensures forall i :: 0 <= i < |lines| ==> ShowsField(c, lines[i])
  {
    ContactItemsShowFilledFields(c, ContactOrder());
    ContactItems(c, ContactOrder())
  }

  /** The whole page: the name, the contact list and the Education and
      Skills sections in the sidebar, and the main column made of the
      sections' own components. */
  function Render(d: ResumeData, order: seq<SectionKey>): (p: Page)
    ensures p.name == d.contact.name
    ensures p.contact == ContactLines(d.contact)
    ensures p.sidebar == [EducationSection(d), SkillsSection(d)]
    ensures Keys(p.sidebar) == [EducationKey, SkillsKey]
    ensures forall i :: 0 <= i < |p.main| ==>
      !IsSidebarKey(p.main[i].key) && SectionComponent(d, p.main[i].key) == Some(p.main[i])
  {
    var main := Rendered(d, MainContentOrder(order));
    RenderedOutsideSidebar(d, MainContentOrder(order));
    Page(d.contact.name, ContactLines(d.contact), [EducationSection(d), SkillsSection(d)], main)
  }

  /** Every rendered section is its key's component, so none of them has a
      sidebar key. */
  lemma RenderedOutsideSidebar(d: ResumeData, keys: seq<SectionKey>)
    ensures forall i :: 0 <= i < |Rendered(d, keys)| ==>
      !IsSidebarKey(Rendered(d, keys)[i].key)
      && SectionComponent(d, Rendered(d, keys)[i].key) == Some(Rendered(d, keys)[i])
  {
  }

  lemma {:induction false} RenderedKeys(d: ResumeData, keys: seq<SectionKey>)
    ensures Keys(Rendered(d, keys)) == Filter(keys, HasComponent(d))
  {
    if keys != [] {
      RenderedKeys(d, keys[1..]);
      var head := SectionComponent(d, keys[0]);
      var first := if head.Some? then [head.value] else [];
      MapAppend(first, Rendered(d, keys[1..]), SectionKeyOf);
    }
  }

  /** The main column holds, in the order given, exactly the keys that are
      not sidebar keys and whose component renders something. */
  lemma MainFollowsOrder(d: ResumeData, order: seq<SectionKey>)
    ensures Keys(Render(d, order).main) == Filter(order, ShownInMain(d))
  {
    RenderedKeys(d, MainContentOrder(order));
    ShownInMainMeansRendered(d);
    FilterFilter(order, NotSidebar, HasComponent(d), ShownInMain(d));
  }

  /** Summary and experience are in the main column exactly when the order
      names them (the summary even when it is empty); projects exactly when
      the order names them and there is at least one project; education and
      skills never. */
  lemma MainSectionPresence(d: ResumeData, order: seq<SectionKey>)
    ensures SummaryKey in Keys(Render(d, order).main) <==> SummaryKey in order
    ensures ExperienceKey in Keys(Render(d, order).main) <==> ExperienceKey in order
    ensures ProjectsKey in Keys(Render(d, order).main) <==> ProjectsKey in order && |d.projects| > 0
    ensures EducationKey !in Keys(Render(d, order).main) && SkillsKey !in Keys(Render(d, order).main)
  {
    MainFollowsOrder(d, order);
    ShownKeys(d, order);
  }

  /** The same facts about the order filtered to the main-column keys. */
  lemma ShownKeys(d: ResumeData, order: seq<SectionKey>)
    ensures SummaryKey in Filter(order, ShownInMain(d)) <==> SummaryKey in order
    ensures ExperienceKey in Filter(order, ShownInMain(d)) <==> ExperienceKey in order
    ensures ProjectsKey in Filter(order, ShownInMain(d)) <==> ProjectsKey in order && |d.projects| > 0
    ensures EducationKey !in Filter(order, ShownInMain(d)) && SkillsKey !in Filter(order, ShownInMain(d))
  {
    var keep := ShownInMain(d);
    FilterMembership(order, keep, SummaryKey);
    FilterMembership(order, keep, ExperienceKey);
    FilterMembership(order, keep, ProjectsKey);
    FilterMembership(order, keep, EducationKey);
    FilterMembership(order, keep, SkillsKey);
  }

  /** Two main-column sections appear in the relative order the section
      order gives them. */
  lemma MainKeepsRelativeOrder(d: ResumeData, order: seq<SectionKey>, a: SectionKey, b: SectionKey)
    requires Before(order, a, b)
    requires ShownInMain(d)(a) && ShownInMain(d)(b)
    ensures Before(Keys(Render(d, order).main), a, b)
  {
    MainFollowsOrder(d, order);
    FilterKeepsOrder(order, ShownInMain(d), a, b);
  }

  /** With a permutation of the five keys, every section appears exactly once
      on the page, sidebar and main column together, except that the projects
      section is absent when there are no projects. */
  lemma EverySectionOnce(d: ResumeData, order: seq<SectionKey>)
    requires IsPermutation(order)
    ensures var p := Render(d, order);
      forall k :: multiset(Keys(p.sidebar) + Keys(p.main))[k] == if k == ProjectsKey && |d.projects| == 0 then 0 else 1
  {
    var p := Render(d, order);
    MainFollowsOrder(d, order);
    assert Keys(p.sidebar) + Keys(p.main) == [EducationKey, SkillsKey] + Filter(order, ShownInMain(d));
    KeysOnPageOnce(d, order);
  }

  /** The counting behind `EverySectionOnce`, on the sidebar's keys followed
      by the order filtered to the main-column keys. */
  lemma KeysOnPageOnce(d: ResumeData, order: seq<SectionKey>)
    requires IsPermutation(order)
    ensures forall k ::
      multiset([EducationKey, SkillsKey] + Filter(order, ShownInMain(d)))[k]
      == if k == ProjectsKey && |d.projects| == 0 then 0 else 1
  {
    var onPage := multiset([EducationKey, SkillsKey] + Filter(order, ShownInMain(d)));
    var side, main := multiset{EducationKey, SkillsKey}, multiset(Filter(order, ShownInMain(d)));
    assert onPage == side + main;
    forall k ensures onPage[k] == if k == ProjectsKey && |d.projects| == 0 then 0 else 1 {
      ShownCount(d, order, k);
      SidebarCount(k);
      SidebarOrMain(d, k);
      assert onPage[k] == side[k] + main[k];
    }
  }

  /** Every key is in the sidebar or the main column and not both, except
      projects without any project, which is in neither. */
  lemma SidebarOrMain(d: ResumeData, k: SectionKey)
    ensures (if IsSidebarKey(k) then 1 else 0) + (if ShownInMain(d)(k) then 1 else 0)
      == if k == ProjectsKey && |d.projects| == 0 then 0 else 1
  {
  }

  lemma SidebarCount(k: SectionKey)
    ensures multiset{EducationKey, SkillsKey}[k] == if IsSidebarKey(k) then 1 else 0
  {
  }

  lemma ShownCount(d: ResumeData, order: seq<SectionKey>, k: SectionKey)
    requires IsPermutation(order)
    ensures multiset(Filter(order, ShownInMain(d)))[k] == if ShownInMain(d)(k) then 1 else 0
  {
    FilterCount(order, ShownInMain(d), k);
    PermutationCount(order, k);
  }

  /** Reordering changes the main column only: the name, the contact list and
      the sidebar do not depend on the order, and two orders holding the same
      keys put the same sections in the main column. */
  lemma OrderOnlyMovesMainSections(d: ResumeData, o1: seq<SectionKey>, o2: seq<SectionKey>)
    requires multiset(o1) == multiset(o2)
    ensures Render(d, o1).name == Render(d, o2).name
    ensures Render(d, o1).contact == Render(d, o2).contact
    ensures Render(d, o1).sidebar == Render(d, o2).sidebar
    ensures multiset(Keys(Render(d, o1).main)) == multiset(Keys(Render(d, o2).main))
  {
    MainFollowsOrder(d, o1);
    MainFollowsOrder(d, o2);
    FilterSameMultiset(o1, o2, ShownInMain(d));
  }
}
