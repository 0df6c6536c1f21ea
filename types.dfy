/** The resume document (types.ts): a contact record, a summary and four
    lists whose items each carry a string `id`. The section order is not part
    of the document; it is controller state (see module App). */
module Types {
  import opened Seqs

  /** An optional value: a missing list in the AI reply, a missing link, an
      error banner that is not shown. */
  datatype Option<T> = None | Some(value: T)

  datatype ContactInfo = ContactInfo(
    name: string,
    email: string,
    phone: string,
    linkedin: string,
    github: string,
    website: string,
    location: string)

  /** The seven keys of ContactInfo, the `name` attribute of each contact input. */
  datatype ContactField = Name | Email | Phone | Linkedin | Github | Website | Location

  datatype Experience = Experience(
    id: string,
    company: string,
    title: string,
    startDate: string,
    endDate: string,
    location: string,
    description: seq<string>)

  datatype Education = Education(
    id: string,
    institution: string,
    degree: string,
    startDate: string,
    endDate: string,
    location: string)

  datatype Project = Project(id: string, name: string, description: string, link: string)

  /** `items` is one comma-separated string; it is never parsed. */
  datatype Skill = Skill(id: string, category: string, items: string)

  /** The closed enumeration 'summary' | 'experience' | 'education' | 'projects' | 'skills'. */
  datatype SectionKey = SummaryKey | ExperienceKey | EducationKey | ProjectsKey | SkillsKey

  /** The keys that name a list of the document. */
  type ListKey = k: SectionKey | k != SummaryKey witness ExperienceKey

  datatype ResumeData = ResumeData(
    contact: ContactInfo,
    summary: string,
    experience: seq<Experience>,
    education: seq<Education>,
    projects: seq<Project>,
    skills: seq<Skill>)

  /** The two renderers of the `templates` list; `Name` is the display name. */
  datatype Template = Modern | Classic
  {
    function Name(): string
    {
      match this
      case Modern => "Modern"
      case Classic => "Classic"
    }
  }

  /** The five keys, in the order of the SectionKey union. */
  function AllSectionKeys(): seq<SectionKey>
  {
    [SummaryKey, ExperienceKey, EducationKey, ProjectsKey, SkillsKey]
  }

  /** A section order names every key exactly once. */
  ghost predicate IsPermutation(order: seq<SectionKey>)
  {
    multiset(order) == multiset(AllSectionKeys())
  }

  function ContactValue(c: ContactInfo, f: ContactField): string
  {
    match f
    case Name => c.name
    case Email => c.email
    case Phone => c.phone
    case Linkedin => c.linkedin
    case Github => c.github
    case Website => c.website
    case Location => c.location
  }

  function ExperienceId(e: Experience): string { e.id }
  function EducationId(e: Education): string { e.id }
  function ProjectId(p: Project): string { p.id }
  function SkillId(s: Skill): string { s.id }

  /** The ids of a list, in list order. */
  function Ids<T>(xs: seq<T>, idOf: T -> string): seq<string>
  {
    Map(xs, idOf)
  }

  /** The ids of the list named by `k`, in list order. */
  function ListIds(d: ResumeData, k: ListKey): seq<string>
  {
    match k
    case ExperienceKey => Ids(d.experience, ExperienceId)
    case EducationKey => Ids(d.education, EducationId)
    case ProjectsKey => Ids(d.projects, ProjectId)
    case SkillsKey => Ids(d.skills, SkillId)
  }

  /** Within each list no two items share an id (what React's `key` needs). */
  predicate DistinctIds(d: ResumeData)
  {
    && Distinct(ListIds(d, ExperienceKey))
    && Distinct(ListIds(d, EducationKey))
    && Distinct(ListIds(d, ProjectsKey))
    && Distinct(ListIds(d, SkillsKey))
  }

  /** A permutation of the five keys holds each key exactly once. */
  lemma PermutationCount(order: seq<SectionKey>, k: SectionKey)
    requires IsPermutation(order)
    ensures multiset(order)[k] == 1
  {
  }

  /** A permutation of the five keys has five elements and holds each key. */
  lemma PermutationHoldsEveryKey(order: seq<SectionKey>)
    requires IsPermutation(order)
    ensures |order| == 5
    ensures forall k: SectionKey :: k in order
  {
    assert |multiset(order)| == |multiset(AllSectionKeys())|;
    forall k: SectionKey ensures k in order {
      var i := match k
        case SummaryKey => 0 case ExperienceKey => 1 case EducationKey => 2
        case ProjectsKey => 3 case SkillsKey => 4;
      assert AllSectionKeys()[i] == k;
      assert k in multiset(order);
    }
  }
}
