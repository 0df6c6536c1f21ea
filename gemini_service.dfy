/** The pure parts of services/geminiService.ts: the normalisation that
    `parseResume` applies to the AI reply once it is parsed (fresh ids for
    every list item, `[]` for a missing list), and the background text that
    `generateSummary` sends. The AI calls themselves are parameters of the
    controller (module App). */
module GeminiService {
  import opened Types
  import opened Text
  import opened Seqs

  /** The AI reply after `JSON.parse`: contact and summary as given, each list
      present or absent. Item ids in the reply, if any, are overridden. */
  datatype ParsedResume = ParsedResume(
    contact: ContactInfo,
    summary: string,
    experience: Option<seq<Experience>>,
    education: Option<seq<Education>>,
    projects: Option<seq<Project>>,
    skills: Option<seq<Skill>>)

  /** The value `Date.now()` returns inside the map callback for item `i` of
      each list (every callback reads the clock anew). */
  datatype Clock = Clock(experience: nat -> nat, education: nat -> nat, projects: nat -> nat, skills: nat -> nat)

  const ExperiencePrefix: string := "exp"
  const EducationPrefix: string := "edu"
  const ProjectPrefix: string := "proj"
  const SkillPrefix: string := "skill"

  /** The template literal `${prefix}${Date.now()}${index}`. */
  function ItemId(prefix: string, stamp: nat, index: nat): (id: string)
    ensures |id| == |prefix| + |Decimal(stamp)| + |Decimal(index)|
    ensures id[..|prefix|] == prefix
    ensures id[|prefix| + |Decimal(stamp)|..] == Decimal(index)
  {
    prefix + Decimal(stamp) + Decimal(index)
  }

  /** `xs.map((item, index) => ({ ...item, id: ... }))` for the items from
      position `start` on. */
  function RekeyFrom<T>(xs: seq<T>, withId: (T, string) -> T, prefix: string, now: nat -> nat, start: nat): (r: seq<T>)
    ensures |r| == |xs|
    ensures forall i :: 0 <= i < |xs| ==> r[i] == withId(xs[i], ItemId(prefix, now(start + i), start + i))
    decreases |xs|
  {
    if xs == [] then []
    else [withId(xs[0], ItemId(prefix, now(start), start))] + RekeyFrom(xs[1..], withId, prefix, now, start + 1)
  }

  /** `list?.map(...) || []`: an absent list becomes the empty list. */
  function Rekey<T>(list: Option<seq<T>>, withId: (T, string) -> T, prefix: string, now: nat -> nat): (r: seq<T>)
    ensures |r| == |Present(list)|
    ensures forall i :: 0 <= i < |r| ==> r[i] == withId(Present(list)[i], ItemId(prefix, now(i), i))
  {
    match list
    case None => []
    case Some(xs) => RekeyFrom(xs, withId, prefix, now, 0)
  }

  function Present<T>(list: Option<seq<T>>): seq<T>
  {
    match list
    case None => []
    case Some(xs) => xs
  }

  /** `dataWithIds`: contact and summary pass through, every present list keeps
      its items and their order with only the id replaced, a missing list is
      empty. */
  function NormalizeReply(p: ParsedResume, clock: Clock): (d: ResumeData)
    ensures d.contact == p.contact && d.summary == p.summary
    ensures |d.experience| == |Present(p.experience)| && |d.education| == |Present(p.education)|
    ensures |d.projects| == |Present(p.projects)| && |d.skills| == |Present(p.skills)|
    ensures forall i :: 0 <= i < |d.experience| ==>
      d.experience[i] == Present(p.experience)[i].(id := ItemId(ExperiencePrefix, clock.experience(i), i))
    ensures forall i :: 0 <= i < |d.education| ==>
      d.education[i] == Present(p.education)[i].(id := ItemId(EducationPrefix, clock.education(i), i))
    ensures forall i :: 0 <= i < |d.projects| ==>
      d.projects[i] == Present(p.projects)[i].(id := ItemId(ProjectPrefix, clock.projects(i), i))
    ensures forall i :: 0 <= i < |d.skills| ==>
      d.skills[i] == Present(p.skills)[i].(id := ItemId(SkillPrefix, clock.skills(i), i))
  {
    ResumeData(
      p.contact,
      p.summary,
      Rekey(p.experience, (e: Experience, id) => e.(id := id), ExperiencePrefix, clock.experience),
      Rekey(p.education, (e: Education, id) => e.(id := id), EducationPrefix, clock.education),
      Rekey(p.projects, (x: Project, id) => x.(id := id), ProjectPrefix, clock.projects),
      Rekey(p.skills, (s: Skill, id) => s.(id := id), SkillPrefix, clock.skills))
  }

  /** Every reading of `now` has `width` decimal digits (a millisecond clock
      between 2001 and 2286 always has 13). */
  ghost predicate FixedWidth(now: nat -> nat, width: nat)
  {
    forall i :: |Decimal(now(i))| == width
  }

  ghost predicate ClockWidth(clock: Clock, width: nat)
  {
    FixedWidth(clock.experience, width) && FixedWidth(clock.education, width)
    && FixedWidth(clock.projects, width) && FixedWidth(clock.skills, width)
  }

  /** Two ids minted with one prefix and clock readings of the same width are
      equal only for the same index. */
  lemma ItemIdDeterminesIndex(prefix: string, s1: nat, i: nat, s2: nat, j: nat)
    requires |Decimal(s1)| == |Decimal(s2)|
    requires ItemId(prefix, s1, i) == ItemId(prefix, s2, j)
    ensures i == j
  {
    var a, b := ItemId(prefix, s1, i), ItemId(prefix, s2, j);
    var n := |prefix| + |Decimal(s1)|;
    assert a[n..] == Decimal(i);
    assert b[n..] == Decimal(j);
    DecimalInjective(i, j);
  }

  lemma RekeyedIdsDistinct<T>(xs: seq<T>, withId: (T, string) -> T, idOf: T -> string, prefix: string,
                              now: nat -> nat, width: nat)
    requires FixedWidth(now, width)
    requires forall x, s :: idOf(withId(x, s)) == s
    ensures Distinct(Ids(RekeyFrom(xs, withId, prefix, now, 0), idOf))
  {
    var r := RekeyFrom(xs, withId, prefix, now, 0);
    var ids := Ids(r, idOf);
    forall i, j | 0 <= i < j < |ids| ensures ids[i] != ids[j] {
      assert ids[i] == ItemId(prefix, now(i), i);
      assert ids[j] == ItemId(prefix, now(j), j);
      if ids[i] == ids[j] {
        ItemIdDeterminesIndex(prefix, now(i), i, now(j), j);
      }
    }
  }

  /** Within each imported list the ids are pairwise distinct, provided the
      clock readings all have the same number of digits. */
  lemma ImportedIdsDistinct(p: ParsedResume, clock: Clock, width: nat)
    requires ClockWidth(clock, width)
    ensures DistinctIds(NormalizeReply(p, clock))
  {
    var d := NormalizeReply(p, clock);
    if p.experience.Some? {
      RekeyedIdsDistinct(p.experience.value, (e: Experience, id) => e.(id := id), ExperienceId,
        ExperiencePrefix, clock.experience, width);
    }
    if p.education.Some? {
      RekeyedIdsDistinct(p.education.value, (e: Education, id) => e.(id := id), EducationId,
        EducationPrefix, clock.education, width);
    }
    if p.projects.Some? {
      RekeyedIdsDistinct(p.projects.value, (x: Project, id) => x.(id := id), ProjectId,
        ProjectPrefix, clock.projects, width);
    }
    if p.skills.Some? {
      RekeyedIdsDistinct(p.skills.value, (s: Skill, id) => s.(id := id), SkillId,
        SkillPrefix, clock.skills, width);
    }
  }

  /** Neither of two strings is a prefix of the other. */
  predicate Unrelated(p: string, q: string)
  {
    !(p <= q) && !(q <= p)
  }

  /** Strings that start with unrelated prefixes differ. */
  lemma UnrelatedPrefixesSeparate(p: string, q: string, x: string, y: string)
    requires Unrelated(p, q)
    ensures p + x != q + y
  {
    if |p| <= |q| {
      assert (p + x)[..|p|] == p;
    } else {
      assert (q + y)[..|q|] == q;
    }
  }

  /** Ids minted with unrelated prefixes differ, whatever the clock readings
      and indices. */
  lemma ItemIdsApart(p: string, q: string, s1: nat, i: nat, s2: nat, j: nat)
    requires Unrelated(p, q)
    ensures ItemId(p, s1, i) != ItemId(q, s2, j)
  {
    var a, b := Decimal(s1) + Decimal(i), Decimal(s2) + Decimal(j);
    UnrelatedPrefixesSeparate(p, q, a, b);
    assert ItemId(p, s1, i) == p + a && ItemId(q, s2, j) == q + b;
  }

  /** The four prefixes are pairwise unrelated, so an id minted for one list
      never equals an id minted for another, whatever the clock says. */
  lemma PrefixesKeepListsApart(s1: nat, i: nat, s2: nat, j: nat)
    ensures ItemId(ExperiencePrefix, s1, i) != ItemId(EducationPrefix, s2, j)
    ensures ItemId(ExperiencePrefix, s1, i) != ItemId(ProjectPrefix, s2, j)
    ensures ItemId(ExperiencePrefix, s1, i) != ItemId(SkillPrefix, s2, j)
    ensures ItemId(EducationPrefix, s1, i) != ItemId(ProjectPrefix, s2, j)
    ensures ItemId(EducationPrefix, s1, i) != ItemId(SkillPrefix, s2, j)
    ensures ItemId(ProjectPrefix, s1, i) != ItemId(SkillPrefix, s2, j)
  {
    assert ExperiencePrefix[2] != EducationPrefix[2] && ExperiencePrefix[0] != ProjectPrefix[0];
    assert ExperiencePrefix[0] != SkillPrefix[0] && EducationPrefix[0] != ProjectPrefix[0];
    assert EducationPrefix[0] != SkillPrefix[0] && ProjectPrefix[0] != SkillPrefix[0];
    ItemIdsApart(ExperiencePrefix, EducationPrefix, s1, i, s2, j);
    ItemIdsApart(ExperiencePrefix, ProjectPrefix, s1, i, s2, j);
    ItemIdsApart(ExperiencePrefix, SkillPrefix, s1, i, s2, j);
    ItemIdsApart(EducationPrefix, ProjectPrefix, s1, i, s2, j);
    ItemIdsApart(EducationPrefix, SkillPrefix, s1, i, s2, j);
    ItemIdsApart(ProjectPrefix, SkillPrefix, s1, i, s2, j);
  }

  // ---------------------------------------------------------------------------
  // generateSummary: the background text sent to the AI

  /** No field of the entry that its line shows holds a line break. */
  predicate SingleLineExperience(e: Experience)
  {
    '\n' !in e.title && '\n' !in e.company && '\n' !in e.startDate && '\n' !in e.endDate
    && FreeOf(e.description, '\n')
  }

  /** `- ${title} at ${company} (${startDate} - ${endDate}): ${description.join(', ')}`:
      one line exactly when the fields it shows are. */
  function ExperienceLine(e: Experience): (line: string)
    ensures '\n' !in line <==> SingleLineExperience(e)
  {
    JoinFreeOf(e.description, ", ", '\n');
    "- " + e.title + " at " + e.company + " (" + e.startDate + " - " + e.endDate + "): " + Join(e.description, ", ")
  }

  /** `- ${degree} from ${institution}`: one line exactly when both fields are. */
  function EducationLine(e: Education): (line: string)
    ensures '\n' !in line <==> '\n' !in e.degree && '\n' !in e.institution
  {
    "- " + e.degree + " from " + e.institution
  }

  /** `${category}: ${items}`: one line exactly when both fields are. */
  function SkillLine(s: Skill): (line: string)
    ensures '\n' !in line <==> '\n' !in s.category && '\n' !in s.items
  {
    s.category + ": " + s.items
  }

  const Indent: string := "        "

  /** One titled block of the request: a blank line, the title, then the
      entries' lines joined by line breaks. */
  function Block(title: string, lines: seq<string>): (r: string)
    ensures ContainsAll(r, lines)
  {
    var head := Indent + "\n" + Indent + title + "\n" + Indent;
    forall i | 0 <= i < |lines| ensures Contains(head + Join(lines, "\n") + "\n", lines[i]) {
      JoinContains(lines, "\n", i);
      ContainsInside(head, Join(lines, "\n"), "\n", lines[i]);
    }
    head + Join(lines, "\n") + "\n"
  }

  function ContextHead(): string
  {
    "\n" + Indent
    + "Based on the following " + "professional background, " + "write a compelling and "
    + "concise professional " + "summary (2-4 sentences) for " + "a resume.\n"
  }

  /** The `context` template literal of generateSummary: the instruction,
      then an Experience, an Education and a Skills block. Every entry of
      the three lists has its line in the request. */
  function SummaryContext(d: ResumeData): (r: string)
    ensures ContainsAll(r, Map(d.experience, ExperienceLine))
    ensures ContainsAll(r, Map(d.education, EducationLine))
    ensures ContainsAll(r, Map(d.skills, SkillLine))
  {
    var experience := Block("Experience:", Map(d.experience, ExperienceLine));
    var education := Block("Education:", Map(d.education, EducationLine));
    var skills := Block("Skills:", Map(d.skills, SkillLine));
    var tail := "    ";
    SentInOrder(ContextHead(), experience, education, skills, tail, Map(d.experience, ExperienceLine));
    SentInOrder(ContextHead(), experience, education, skills, tail, Map(d.education, EducationLine));
    SentInOrder(ContextHead(), experience, education, skills, tail, Map(d.skills, SkillLine));
    ContextHead() + (experience + (education + (skills + tail)))
  }

  /** Lines held by any of the three blocks are held by the whole request. */
  lemma SentInOrder(head: string, b1: string, b2: string, b3: string, tail: string, lines: seq<string>)
    requires ContainsAll(b1, lines) || ContainsAll(b2, lines) || ContainsAll(b3, lines)
    ensures ContainsAll(head + (b1 + (b2 + (b3 + tail))), lines)
  {
    if ContainsAll(b3, lines) {
      ContainsAllBefore(b3, tail, lines);
      ContainsAllAfter(b2, b3 + tail, lines);
      ContainsAllAfter(b1, b2 + (b3 + tail), lines);
    } else if ContainsAll(b2, lines) {
      ContainsAllBefore(b2, b3 + tail, lines);
      ContainsAllAfter(b1, b2 + (b3 + tail), lines);
    } else {
      ContainsAllBefore(b1, b2 + (b3 + tail), lines);
    }
    ContainsAllAfter(head, b1 + (b2 + (b3 + tail)), lines);
  }

  /** The summary text sent to the AI does not depend on the contact details,
      the current summary or the projects. */
  lemma SummaryContextReadsOnlyThreeLists(d: ResumeData, c: ContactInfo, s: string, ps: seq<Project>)
    ensures SummaryContext(d.(contact := c, summary := s, projects := ps)) == SummaryContext(d)
  {
    var other := d.(contact := c, summary := s, projects := ps);
    assert other.experience == d.experience && other.education == d.education && other.skills == d.skills;
  }

  /** When no experience field holds a line break, the experience block of the
      summary request, which the request holds whole, has exactly one line
      per entry, in list order. */
  lemma ExperienceBlockOneLinePerEntry(d: ResumeData)
    requires |d.experience| > 0
    requires forall i :: 0 <= i < |d.experience| ==> SingleLineExperience(d.experience[i])
    ensures Contains(SummaryContext(d), Join(Map(d.experience, ExperienceLine), "\n"))
    ensures Split(Join(Map(d.experience, ExperienceLine), "\n"), '\n') == Map(d.experience, ExperienceLine)
  {
    var lines := Map(d.experience, ExperienceLine);
    assert FreeOf(lines, '\n');
    SplitJoin(lines, '\n');
    var rest := Block("Education:", Map(d.education, EducationLine))
      + (Block("Skills:", Map(d.skills, SkillLine)) + "    ");
    BlockHoldsItsLines(ContextHead(), "Experience:", lines, rest);
  }

  /** A request holding a block holds the block's joined lines whole. */
  lemma BlockHoldsItsLines(head: string, title: string, lines: seq<string>, rest: string)
    ensures Contains(head + (Block(title, lines) + rest), Join(lines, "\n"))
  {
    var block := Join(lines, "\n");
    var before := head + (Indent + "\n" + Indent + title + "\n" + Indent);
    assert block[0..|block|] == block;
    ContainsInside(before, block, "\n" + rest, block);
    assert head + (Block(title, lines) + rest) == before + block + ("\n" + rest);
  }
}
