/** The starting document and the list of templates (constants.ts), and the
    dispatch from a template to the component that draws it. */
module Constants {
  import opened Types
  import opened Seqs
  import opened Text
  import ResumeForm
  import ModernTemplate
  import ClassicTemplate

  /** `initialResumeData`: the placeholder document the form opens with. It
      has an entry in every list, no empty contact field, and distinct ids
      in every list. Longer texts are written as concatenations of short
      pieces; the strings are the same. */
  function InitialResumeData(): (d: ResumeData)
    ensures |d.experience| > 0 && |d.education| > 0 && |d.projects| > 0 && |d.skills| > 0
    ensures forall f :: ContactValue(d.contact, f) != ""
    ensures DistinctIds(d)
  {
    ResumeData(InitialContact(), InitialSummary(), InitialExperience(), InitialEducation(),
      InitialProjects(), InitialSkills())
  }

  function InitialContact(): (c: ContactInfo)
    ensures forall f :: ContactValue(c, f) != ""
  {
    assert "Your Name"[0] == 'Y' && "your.email@example.com"[0] == 'y' && "123-456-7890"[0] == '1';
    assert "linkedin.com/in/yourprofile"[0] == 'l' && "github.com/yourusername"[0] == 'g';
    assert "yourportfolio.com"[0] == 'y' && "City, State"[0] == 'C';
    ContactInfo(
      "Your Name",
      "your.email@example.com",
      "123-456-7890",
      "linkedin.com/in/yourprofile",
      "github.com/yourusername",
      "yourportfolio.com",
      "City, State")
  }

  function InitialSummary(): string
  {
    "A brief professional " + "summary about yourself. " + "Highlight your key skills, " + "experience, and career " + "goals. Tailor this to the " + "job you are applying for."
  }

  function InitialBullets(): seq<string>
  {
    ["Developed and maintained " + "web applications using " + "React and TypeScript.",
     "Collaborated with " + "cross-functional teams to " + "deliver high-quality " + "software.",
     "Improved application " + "performance by 20% through " + "code optimization."]
  }

  function InitialExperience(): seq<Experience>
  {
    [Experience("exp1", "Awesome Company", "Software Engineer", "Jan 2022", "Present", "San Francisco, CA",
      InitialBullets())]
  }

  function InitialEducation(): seq<Education>
  {
    [Education("edu1", "University of Technology", "B.S. in Computer Science", "Sep 2018", "Dec 2021", "Techville, USA")]
  }

  function InitialProjects(): seq<Project>
  {
    [Project("proj1", "Personal Portfolio Website",
      "Designed and built a " + "responsive portfolio " + "website to showcase my " + "projects and skills.",
      "yourportfolio.com")]
  }

  function InitialSkills(): (skills: seq<Skill>)
    ensures |skills| == 3 && Distinct(Ids(skills, SkillId))
  {
    assert "skill1"[5] == '1' && "skill2"[5] == '2' && "skill3"[5] == '3';
    [Skill("skill1", "Programming Languages", "JavaScript, TypeScript, " + "Python, HTML, CSS"),
     Skill("skill2", "Frameworks & Libraries", "React, Node.js, Express, " + "Tailwind CSS"),
     Skill("skill3", "Tools & Platforms", "Git, Docker, AWS, Vercel")]
  }

  /** `templates`: Modern first, then Classic. The template buttons are
      keyed and compared by name, and each template has a name of its own. */
  function Templates(): (ts: seq<Template>)
    ensures |ts| == 2 && ts[0] == Modern && ts[1] == Classic
    ensures forall i, j :: 0 <= i < j < |ts| ==> ts[i].Name() != ts[j].Name()
  {
    assert Modern.Name() != Classic.Name() by {
      assert Modern.Name()[0] == 'M' && Classic.Name()[0] == 'C';
    }
    [Modern, Classic]
  }

  /** What a template's component draws. */
  datatype View =
    | ModernView(modern: ModernTemplate.Page)
    | ClassicView(classic: ClassicTemplate.Page)

  /** `template.component` applied to the document and the section order;
      the Classic component takes no order. */
  function RenderWith(t: Template, d: ResumeData, order: seq<SectionKey>): (v: View)
    ensures v.ModernView? <==> t == Modern
    ensures t == Modern ==> v == ModernView(ModernTemplate.Render(d, order))
    ensures t == Classic ==> v == ClassicView(ClassicTemplate.Render(d))
  {
    match t
    case Modern => ModernView(ModernTemplate.Render(d, order))
    case Classic => ClassicView(ClassicTemplate.Render(d))
  }

  /** No starting bullet holds a line break. */
  lemma InitialBulletsOneLineEach()
    ensures |InitialBullets()| == 3 && FreeOf(InitialBullets(), '\n')
  {
    FirstBulletOneLine();
    SecondBulletOneLine();
    ThirdBulletOneLine();
  }

  lemma FirstBulletOneLine()
    ensures '\n' !in InitialBullets()[0]
  {
    var a, b, c := "Developed and maintained ", "web applications using ", "React and TypeScript.";
    assert '\n' !in a;
    assert '\n' !in b;
    assert '\n' !in c;
    assert InitialBullets()[0] == a + b + c;
  }

  lemma SecondBulletOneLine()
    ensures '\n' !in InitialBullets()[1]
  {
    var a, b, c, e := "Collaborated with ", "cross-functional teams to ", "deliver high-quality ", "software.";
    assert '\n' !in a;
    assert '\n' !in b;
    assert '\n' !in c;
    assert '\n' !in e;
    assert InitialBullets()[1] == a + b + c + e;
  }

  lemma ThirdBulletOneLine()
    ensures '\n' !in InitialBullets()[2]
  {
    var a, b, c := "Improved application ", "performance by 20% through ", "code optimization.";
    assert '\n' !in a;
    assert '\n' !in b;
    assert '\n' !in c;
    assert InitialBullets()[2] == a + b + c;
  }

  /** The starting bullets survive the description textarea: showing them
      joined by line breaks and submitting that text changes nothing. */
  lemma InitialDescriptionRoundTrip()
    ensures var d := InitialResumeData();
      ResumeForm.ExperienceChange(d, "exp1", ResumeForm.Description, Join(InitialBullets(), "\n")) == d
  {
    InitialBulletsOneLineEach();
    ResumeForm.DescriptionRoundTrip(InitialResumeData(), 0);
  }

  /** With the starting document and any permutation of the keys, the Modern
      template shows every section exactly once, projects included, since the
      starting document has a project. */
  lemma InitialModernShowsProjects(order: seq<SectionKey>)
    requires IsPermutation(order)
    ensures var p := ModernTemplate.Render(InitialResumeData(), order);
      forall k :: multiset(ModernTemplate.Keys(p.sidebar) + ModernTemplate.Keys(p.main))[k] == 1
  {
    ModernTemplate.EverySectionOnce(InitialResumeData(), order);
  }
}
