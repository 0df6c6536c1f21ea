/** The editing handlers of the resume form (components/ResumeForm.tsx). Each
    handler hands `setResumeData` an updater that takes the previous document
    and returns a new one; here each updater is a function on ResumeData. */
module ResumeForm {
  import opened Types
  import opened Text
  import opened Seqs

  /** The `name` attributes of the inputs of one experience entry. */
  datatype ExperienceField = Title | Company | StartDate | EndDate | Location | Description
  /** The `name` attributes of the inputs of one education entry. */
  datatype EducationField = Institution | Degree | StartDate | EndDate | Location
  /** The `name` attributes of the inputs of one skill group. */
  datatype SkillField = Category | Items

  /** `r` differs from `d` at most in the list named by `k`. */
  predicate SameExcept(d: ResumeData, r: ResumeData, k: ListKey)
  {
    && r.contact == d.contact
    && r.summary == d.summary
    && (k != ExperienceKey ==> r.experience == d.experience)
    && (k != EducationKey ==> r.education == d.education)
    && (k != ProjectsKey ==> r.projects == d.projects)
    && (k != SkillsKey ==> r.skills == d.skills)
  }

  // ---------------------------------------------------------------------------
  // handleContactChange and handleSummaryChange

  /** `{ ...prev.contact, [name]: value }`. */
  function SetContactField(c: ContactInfo, f: ContactField, value: string): (r: ContactInfo)
    ensures ContactValue(r, f) == value
    ensures forall g :: g != f ==> ContactValue(r, g) == ContactValue(c, g)
  {
    match f
    case Name => c.(name := value)
    case Email => c.(email := value)
    case Phone => c.(phone := value)
    case Linkedin => c.(linkedin := value)
    case Github => c.(github := value)
    case Website => c.(website := value)
    case Location => c.(location := value)
  }

  /** The updater of handleContactChange: only the named contact field changes. */
  function ContactChange(d: ResumeData, f: ContactField, value: string): (r: ResumeData)
    ensures ContactValue(r.contact, f) == value
    ensures forall g :: g != f ==> ContactValue(r.contact, g) == ContactValue(d.contact, g)
    ensures r.summary == d.summary && r.experience == d.experience && r.education == d.education
    ensures r.projects == d.projects && r.skills == d.skills
  {
    d.(contact := SetContactField(d.contact, f, value))
  }

  /** The updater of handleSummaryChange: the summary becomes the value and
      putting the old summary back gives the old document. */
  function SummaryChange(d: ResumeData, value: string): (r: ResumeData)
    ensures r.summary == value
    ensures r.(summary := d.summary) == d
  {
    d.(summary := value)
  }

  /** Writing the value a contact field already holds changes nothing, and of
      two writes to one field the later wins. */
  lemma ContactChangeOverwrites(d: ResumeData, f: ContactField, a: string, b: string)
    ensures ContactChange(d, f, ContactValue(d.contact, f)) == d
    ensures ContactChange(ContactChange(d, f, a), f, b) == ContactChange(d, f, b)
  {
    var c := d.contact;
    var c' := SetContactField(c, f, ContactValue(c, f));
    assert forall g :: ContactValue(c', g) == ContactValue(c, g);
    assert c' == c by {
      assert c'.name == ContactValue(c', Name) && c'.email == ContactValue(c', Email);
      assert c'.phone == ContactValue(c', Phone) && c'.linkedin == ContactValue(c', Linkedin);
      assert c'.github == ContactValue(c', Github) && c'.website == ContactValue(c', Website);
      assert c'.location == ContactValue(c', ContactField.Location);
    }
  }

  /** Of two summary changes the later wins, and writing the summary the
      document already has changes nothing. */
  lemma SummaryChangeOverwrites(d: ResumeData, a: string, b: string)
    ensures SummaryChange(SummaryChange(d, a), b) == SummaryChange(d, b)
    ensures SummaryChange(d, d.summary) == d
  {
  }

  // ---------------------------------------------------------------------------
  // handleDynamicChange: `list.map(item => item.id === id ? {...} : item)`

  /** Applies `change` to every item whose id is `id`, leaving the others and
      the order alone. */
  function UpdateWhere<T>(xs: seq<T>, idOf: T -> string, id: string, change: T -> T): (r: seq<T>)
    ensures |r| == |xs|
    ensures forall i :: 0 <= i < |xs| ==> r[i] == (if idOf(xs[i]) == id then change(xs[i]) else xs[i])
  {
    if xs == [] then []
    else [if idOf(xs[0]) == id then change(xs[0]) else xs[0]] + UpdateWhere(xs[1..], idOf, id, change)
  }

  /** The spread `{ ...item, [name]: name === 'description' ? value.split('\n') : value }`. */
  function SetExperienceField(e: Experience, f: ExperienceField, value: string): (r: Experience)
    ensures r.id == e.id
    ensures r.description == if f == Description then Split(value, '\n') else e.description
    ensures r.title == (if f == Title then value else e.title)
    ensures r.company == (if f == Company then value else e.company)
    ensures r.startDate == (if f == ExperienceField.StartDate then value else e.startDate)
    ensures r.endDate == (if f == ExperienceField.EndDate then value else e.endDate)
    ensures r.location == (if f == ExperienceField.Location then value else e.location)
  {
    match f
    case Title => e.(title := value)
    case Company => e.(company := value)
    case StartDate => e.(startDate := value)
    case EndDate => e.(endDate := value)
    case Location => e.(location := value)
    case Description => e.(description := Split(value, '\n'))
  }

  function SetEducationField(e: Education, f: EducationField, value: string): (r: Education)
    ensures r.id == e.id
    ensures r.institution == (if f == Institution then value else e.institution)
    ensures r.degree == (if f == Degree then value else e.degree)
    ensures r.startDate == (if f == EducationField.StartDate then value else e.startDate)
    ensures r.endDate == (if f == EducationField.EndDate then value else e.endDate)
    ensures r.location == (if f == EducationField.Location then value else e.location)
  {
    match f
    case Institution => e.(institution := value)
    case Degree => e.(degree := value)
    case StartDate => e.(startDate := value)
    case EndDate => e.(endDate := value)
    case Location => e.(location := value)
  }

  function SetSkillField(s: Skill, f: SkillField, value: string): (r: Skill)
    ensures r.id == s.id
    ensures r.category == (if f == Category then value else s.category)
    ensures r.items == (if f == Items then value else s.items)
  {
    match f
    case Category => s.(category := value)
    case Items => s.(items := value)
  }

  /** The per-item update of handleDynamicChange, one per list. */
  function ExperienceSetter(f: ExperienceField, value: string): Experience -> Experience
  {
    e => SetExperienceField(e, f, value)
  }

  function EducationSetter(f: EducationField, value: string): Education -> Education
  {
    e => SetEducationField(e, f, value)
  }

  function SkillSetter(f: SkillField, value: string): Skill -> Skill
  {
    s => SetSkillField(s, f, value)
  }

  /** handleDynamicChange('experience', id, e): every entry whose id matches
      gets the field set; all others, the length and the order are kept. */
  function ExperienceChange(d: ResumeData, id: string, f: ExperienceField, value: string): (r: ResumeData)
    ensures SameExcept(d, r, ExperienceKey)
    ensures |r.experience| == |d.experience|
    ensures forall i :: 0 <= i < |d.experience| ==>
      r.experience[i] == if d.experience[i].id == id then SetExperienceField(d.experience[i], f, value) else d.experience[i]
  {
    d.(experience := UpdateWhere(d.experience, ExperienceId, id, ExperienceSetter(f, value)))
  }

  /** handleDynamicChange('education', id, e). */
  function EducationChange(d: ResumeData, id: string, f: EducationField, value: string): (r: ResumeData)
    ensures SameExcept(d, r, EducationKey)
    ensures |r.education| == |d.education|
    ensures forall i :: 0 <= i < |d.education| ==>
      r.education[i] == if d.education[i].id == id then SetEducationField(d.education[i], f, value) else d.education[i]
  {
    d.(education := UpdateWhere(d.education, EducationId, id, EducationSetter(f, value)))
  }

  /** handleDynamicChange('skills', id, e). */
  function SkillChange(d: ResumeData, id: string, f: SkillField, value: string): (r: ResumeData)
    ensures SameExcept(d, r, SkillsKey)
    ensures |r.skills| == |d.skills|
    ensures forall i :: 0 <= i < |d.skills| ==>
      r.skills[i] == if d.skills[i].id == id then SetSkillField(d.skills[i], f, value) else d.skills[i]
  {
    d.(skills := UpdateWhere(d.skills, SkillId, id, SkillSetter(f, value)))
  }

  /** When no item carries `id`, a dynamic change leaves the document as it was. */
  lemma ChangeWithoutMatchIsNoop(d: ResumeData, id: string, ef: ExperienceField, df: EducationField,
                                 sf: SkillField, value: string)
    ensures id !in ListIds(d, ExperienceKey) ==> ExperienceChange(d, id, ef, value) == d
    ensures id !in ListIds(d, EducationKey) ==> EducationChange(d, id, df, value) == d
    ensures id !in ListIds(d, SkillsKey) ==> SkillChange(d, id, sf, value) == d
  {
    if id !in ListIds(d, ExperienceKey) {
      UpdateWithoutMatch(d.experience, ExperienceId, id, ExperienceSetter(ef, value));
      assert ExperienceChange(d, id, ef, value) == d.(experience := d.experience);
    }
    if id !in ListIds(d, EducationKey) {
      UpdateWithoutMatch(d.education, EducationId, id, EducationSetter(df, value));
      assert EducationChange(d, id, df, value) == d.(education := d.education);
    }
    if id !in ListIds(d, SkillsKey) {
      UpdateWithoutMatch(d.skills, SkillId, id, SkillSetter(sf, value));
      assert SkillChange(d, id, sf, value) == d.(skills := d.skills);
    }
  }

  lemma UpdateWithoutMatch<T>(xs: seq<T>, idOf: T -> string, id: string, change: T -> T)
    requires id !in Ids(xs, idOf)
    ensures UpdateWhere(xs, idOf, id, change) == xs
  {
    var ids := Ids(xs, idOf);
    assert forall i :: 0 <= i < |xs| ==> ids[i] == idOf(xs[i]);
  }

  /** The description textarea shows `description.join('\n')`; whatever text is
      typed there is shown back unchanged after the split. */
  lemma DescriptionShowsWhatWasTyped(e: Experience, value: string)
    ensures Join(SetExperienceField(e, Description, value).description, "\n") == value
  {
    JoinSplit(value, '\n');
  }

  /** Re-submitting the displayed description of entry `k` leaves the document
      unchanged, provided the entry has at least one bullet, no bullet holds a
      line break, and the entry's id is unique. */
  lemma DescriptionRoundTrip(d: ResumeData, k: nat)
    requires k < |d.experience|
    requires forall i :: 0 <= i < |d.experience| && i != k ==> d.experience[i].id != d.experience[k].id
    requires |d.experience[k].description| > 0 && FreeOf(d.experience[k].description, '\n')
    ensures ExperienceChange(d, d.experience[k].id, Description, Join(d.experience[k].description, "\n")) == d
  {
    var e := d.experience[k];
    SplitJoin(e.description, '\n');
    var r := ExperienceChange(d, e.id, Description, Join(e.description, "\n"));
    forall i | 0 <= i < |d.experience| ensures r.experience[i] == d.experience[i] {
      if i != k {
        assert d.experience[i].id != e.id;
      }
    }
  }

  /** An entry with no bullets is shown as an empty textarea; submitting that
      text stores one empty bullet, so the round trip does not hold for it. */
  lemma EmptyDescriptionBecomesOneBullet(e: Experience)
    requires e.description == []
    ensures SetExperienceField(e, Description, Join(e.description, "\n")).description == [""]
  {
  }

  // ---------------------------------------------------------------------------
  // addDynamicItem: `[...prev[section], newItem]` with the literals of the
  // three "Add" buttons; `now` stands for `Date.now()`.

  function NewExperience(now: nat): (e: Experience)
    ensures e.id == "exp" + Decimal(now)
    ensures e.company == "" && e.title == "" && e.startDate == "" && e.endDate == "" && e.location == ""
    ensures e.description == []
  {
    Experience("exp" + Decimal(now), "", "", "", "", "", [])
  }

  function NewEducation(now: nat): (e: Education)
    ensures e.id == "edu" + Decimal(now)
    ensures e.institution == "" && e.degree == "" && e.startDate == "" && e.endDate == "" && e.location == ""
  {
    Education("edu" + Decimal(now), "", "", "", "", "")
  }

  function NewSkill(now: nat): (s: Skill)
    ensures s.id == "skill" + Decimal(now)
    ensures s.category == "" && s.items == ""
  {
    Skill("skill" + Decimal(now), "", "")
  }

  /** The id the "Add" button of list `k` mints at time `now`. */
  function NewId(k: FormListKey, now: nat): string
  {
    match k
    case ExperienceKey => NewExperience(now).id
    case EducationKey => NewEducation(now).id
    case SkillsKey => NewSkill(now).id
  }

  function AddExperience(d: ResumeData, now: nat): (r: ResumeData)
    ensures SameExcept(d, r, ExperienceKey)
    ensures |r.experience| == |d.experience| + 1
    ensures r.experience[..|d.experience|] == d.experience
    ensures r.experience[|d.experience|] == NewExperience(now)
  {
    d.(experience := d.experience + [NewExperience(now)])
  }

  function AddEducation(d: ResumeData, now: nat): (r: ResumeData)
    ensures SameExcept(d, r, EducationKey)
    ensures |r.education| == |d.education| + 1
    ensures r.education[..|d.education|] == d.education
    ensures r.education[|d.education|] == NewEducation(now)
  {
    d.(education := d.education + [NewEducation(now)])
  }

  function AddSkill(d: ResumeData, now: nat): (r: ResumeData)
    ensures SameExcept(d, r, SkillsKey)
    ensures |r.skills| == |d.skills| + 1
    ensures r.skills[..|d.skills|] == d.skills
    ensures r.skills[|d.skills|] == NewSkill(now)
  {
    d.(skills := d.skills + [NewSkill(now)])
  }

  // ---------------------------------------------------------------------------
  // removeDynamicItem: `prev[section].filter(item => item.id !== id)`

  /** The filter's callback `item => item.id !== id`. */
  function NotId<T>(idOf: T -> string, id: string): T -> bool
  {
    x => idOf(x) != id
  }

  function WithoutId<T>(xs: seq<T>, idOf: T -> string, id: string): seq<T>
  {
    Filter(xs, NotId(idOf, id))
  }

  /** The updater of removeDynamicItem: the named list keeps, in their order
      and unchanged, exactly the items whose id differs from `id`. */
  function RemoveItem(d: ResumeData, section: ListKey, id: string): (r: ResumeData)
    ensures SameExcept(d, r, section)
    ensures section == ExperienceKey ==> r.experience == WithoutId(d.experience, ExperienceId, id)
    ensures section == EducationKey ==> r.education == WithoutId(d.education, EducationId, id)
    ensures section == ProjectsKey ==> r.projects == WithoutId(d.projects, ProjectId, id)
    ensures section == SkillsKey ==> r.skills == WithoutId(d.skills, SkillId, id)
    ensures id !in ListIds(r, section)
    ensures |ListIds(r, section)| <= |ListIds(d, section)|
    ensures forall x :: x in ListIds(d, section) && x != id ==> x in ListIds(r, section)
  {
    var r := match section
      case ExperienceKey => d.(experience := WithoutId(d.experience, ExperienceId, id))
      case EducationKey => d.(education := WithoutId(d.education, EducationId, id))
      case ProjectsKey => d.(projects := WithoutId(d.projects, ProjectId, id))
      case SkillsKey => d.(skills := WithoutId(d.skills, SkillId, id));
    RemoveKeepsIds(d.experience, ExperienceId, id);
    RemoveKeepsIds(d.education, EducationId, id);
    RemoveKeepsIds(d.projects, ProjectId, id);
    RemoveKeepsIds(d.skills, SkillId, id);
    r
  }

  /** Removal keeps every other id and drops `id`. */
  lemma RemoveKeepsIds<T>(xs: seq<T>, idOf: T -> string, id: string)
    ensures id !in Ids(WithoutId(xs, idOf, id), idOf)
    ensures forall x :: x in Ids(xs, idOf) && x != id ==> x in Ids(WithoutId(xs, idOf, id), idOf)
  {
    var r := WithoutId(xs, idOf, id);
    var ids, rids := Ids(xs, idOf), Ids(r, idOf);
    forall x | x in ids && x != id ensures x in rids {
      var i :| 0 <= i < |ids| && ids[i] == x;
      FilterMembership(xs, NotId(idOf, id), xs[i]);
      var j :| 0 <= j < |r| && r[j] == xs[i];
      assert rids[j] == x;
    }
  }

  /** Removing an id no item carries is a no-op. */
  lemma {:induction false} RemoveAbsentIsNoop<T>(xs: seq<T>, idOf: T -> string, id: string)
    requires id !in Ids(xs, idOf)
    ensures WithoutId(xs, idOf, id) == xs
  {
    var ids := Ids(xs, idOf);
    assert forall i :: 0 <= i < |xs| ==> idOf(xs[i]) == ids[i];
    FilterKeepsAll(xs, NotId(idOf, id));
  }

  /** Appending an item whose id is fresh and then removing that id restores
      the original list. */
  lemma AppendThenRemove<T>(xs: seq<T>, idOf: T -> string, x: T)
    requires idOf(x) !in Ids(xs, idOf)
    ensures WithoutId(xs + [x], idOf, idOf(x)) == xs
  {
    FilterAppend(xs, [x], NotId(idOf, idOf(x)));
    RemoveAbsentIsNoop(xs, idOf, idOf(x));
    assert [x][1..] == [];
  }

  /** The "Add" then "Remove" round trip on the document: adding an entry at a
      time whose id no entry of that list carries yet, then removing that id,
      gives back the original document. */
  lemma AddThenRemove(d: ResumeData, now: nat)
    ensures NewId(ExperienceKey, now) !in ListIds(d, ExperienceKey) ==>
      RemoveItem(AddExperience(d, now), ExperienceKey, NewId(ExperienceKey, now)) == d
    ensures NewId(EducationKey, now) !in ListIds(d, EducationKey) ==>
      RemoveItem(AddEducation(d, now), EducationKey, NewId(EducationKey, now)) == d
    ensures NewId(SkillsKey, now) !in ListIds(d, SkillsKey) ==>
      RemoveItem(AddSkill(d, now), SkillsKey, NewId(SkillsKey, now)) == d
  {
    if NewId(ExperienceKey, now) !in ListIds(d, ExperienceKey) {
      AppendThenRemove(d.experience, ExperienceId, NewExperience(now));
    }
    if NewId(EducationKey, now) !in ListIds(d, EducationKey) {
      AppendThenRemove(d.education, EducationId, NewEducation(now));
    }
    if NewId(SkillsKey, now) !in ListIds(d, SkillsKey) {
      AppendThenRemove(d.skills, SkillId, NewSkill(now));
    }
  }

  // ---------------------------------------------------------------------------
  // Every handler of the form, as one edit applied to the document.

  /** The lists the form has delete buttons for; there is no projects editor. */
  type FormListKey = k: SectionKey | k == ExperienceKey || k == EducationKey || k == SkillsKey
    witness ExperienceKey

  datatype FormEdit =
    | ContactEdit(field: ContactField, value: string)
    | SummaryEdit(value: string)
    | ExperienceEdit(id: string, experienceField: ExperienceField, value: string)
    | EducationEdit(id: string, educationField: EducationField, value: string)
    | SkillEdit(id: string, skillField: SkillField, value: string)
    | AddExperienceEdit(now: nat)
    | AddEducationEdit(now: nat)
    | AddSkillEdit(now: nat)
    | RemoveEdit(section: FormListKey, id: string)

  /** The form never touches the projects, only a contact edit touches the
      contact, and only a summary edit the summary. */
  function ApplyEdit(d: ResumeData, e: FormEdit): (r: ResumeData)
    ensures r.projects == d.projects
    ensures !e.ContactEdit? ==> r.contact == d.contact
    ensures !e.SummaryEdit? ==> r.summary == d.summary
  {
    match e
    case ContactEdit(f, v) => ContactChange(d, f, v)
    case SummaryEdit(v) => SummaryChange(d, v)
    case ExperienceEdit(id, f, v) => ExperienceChange(d, id, f, v)
    case EducationEdit(id, f, v) => EducationChange(d, id, f, v)
    case SkillEdit(id, f, v) => SkillChange(d, id, f, v)
    case AddExperienceEdit(now) => AddExperience(d, now)
    case AddEducationEdit(now) => AddEducation(d, now)
    case AddSkillEdit(now) => AddSkill(d, now)
    case RemoveEdit(k, id) => RemoveItem(d, k, id)
  }

  /** An "Add" happens at a time whose id is not yet in use in its list (two
      adds in the same millisecond would mint the same id). */
  predicate FreshAdd(d: ResumeData, e: FormEdit)
  {
    match e
    case AddExperienceEdit(now) => NewId(ExperienceKey, now) !in ListIds(d, ExperienceKey)
    case AddEducationEdit(now) => NewId(EducationKey, now) !in ListIds(d, EducationKey)
    case AddSkillEdit(now) => NewId(SkillsKey, now) !in ListIds(d, SkillsKey)
    case _ => true
  }

  lemma UpdateKeepsIds<T>(xs: seq<T>, idOf: T -> string, id: string, change: T -> T)
    requires forall x :: idOf(change(x)) == idOf(x)
    ensures Ids(UpdateWhere(xs, idOf, id, change), idOf) == Ids(xs, idOf)
  {
  }

  lemma AppendKeepsDistinct<T>(xs: seq<T>, idOf: T -> string, x: T)
    requires Distinct(Ids(xs, idOf)) && idOf(x) !in Ids(xs, idOf)
    ensures Distinct(Ids(xs + [x], idOf))
  {
    var ids, ids' := Ids(xs, idOf), Ids(xs + [x], idOf);
    forall i, j | 0 <= i < j < |ids'| ensures ids'[i] != ids'[j] {
      assert ids'[i] == ids[i];
      if j < |xs| { assert ids'[j] == ids[j]; }
    }
  }

  lemma {:induction false} FilterKeepsDistinct<T>(xs: seq<T>, idOf: T -> string, keep: T -> bool)
    requires Distinct(Ids(xs, idOf))
    ensures Distinct(Ids(Filter(xs, keep), idOf))
  {
    if xs != [] {
      var tail := xs[1..];
      var ids, tids := Ids(xs, idOf), Ids(tail, idOf);
      assert forall i :: 0 <= i < |tail| ==> tids[i] == ids[i + 1];
      FilterKeepsDistinct(tail, idOf, keep);
      var rest := Filter(tail, keep);
      var rids := Ids(rest, idOf);
      if keep(xs[0]) {
        var r := [xs[0]] + rest;
        assert Filter(xs, keep) == r;
        forall j | 0 <= j < |rest| ensures idOf(rest[j]) != idOf(xs[0]) {
          FilterMembership(tail, keep, rest[j]);
          var k :| 0 <= k < |tail| && tail[k] == rest[j];
          assert ids[k + 1] == idOf(rest[j]) && ids[0] == idOf(xs[0]);
        }
        var fids := Ids(r, idOf);
        forall i, j | 0 <= i < j < |fids| ensures fids[i] != fids[j] {
          assert fids[j] == rids[j - 1];
          if i > 0 { assert fids[i] == rids[i - 1]; }
        }
      } else {
        assert Filter(xs, keep) == rest;
      }
    }
  }

  /** Every form handler keeps the ids of each list pairwise distinct, given
      that "Add" is never pressed twice within one clock tick. */
  lemma EditKeepsDistinctIds(d: ResumeData, e: FormEdit)
    requires DistinctIds(d) && FreshAdd(d, e)
    ensures DistinctIds(ApplyEdit(d, e))
  {
    match e
    case ContactEdit(_, _) =>
    case SummaryEdit(_) =>
    case ExperienceEdit(id, f, v) =>
      UpdateKeepsIds(d.experience, ExperienceId, id, ExperienceSetter(f, v));
    case EducationEdit(id, f, v) =>
      UpdateKeepsIds(d.education, EducationId, id, EducationSetter(f, v));
    case SkillEdit(id, f, v) =>
      UpdateKeepsIds(d.skills, SkillId, id, SkillSetter(f, v));
    case AddExperienceEdit(now) =>
      AppendKeepsDistinct(d.experience, ExperienceId, NewExperience(now));
    case AddEducationEdit(now) =>
      AppendKeepsDistinct(d.education, EducationId, NewEducation(now));
    case AddSkillEdit(now) =>
      AppendKeepsDistinct(d.skills, SkillId, NewSkill(now));
    case RemoveEdit(k, id) =>
      RemoveKeepsDistinctIds(d, k, id);
  }

  lemma RemoveKeepsDistinctIds(d: ResumeData, k: ListKey, id: string)
    requires DistinctIds(d)
    ensures DistinctIds(RemoveItem(d, k, id))
  {
    match k {
      case ExperienceKey => FilterKeepsDistinct(d.experience, ExperienceId, NotId(ExperienceId, id));
      case EducationKey => FilterKeepsDistinct(d.education, EducationId, NotId(EducationId, id));
      case ProjectsKey => FilterKeepsDistinct(d.projects, ProjectId, NotId(ProjectId, id));
      case SkillsKey => FilterKeepsDistinct(d.skills, SkillId, NotId(SkillId, id));
    }
  }

  /** With distinct ids, removing an id that is present drops exactly one item. */
  lemma {:induction false} RemovePresentDropsOne<T>(xs: seq<T>, idOf: T -> string, id: string)
    requires Distinct(Ids(xs, idOf)) && id in Ids(xs, idOf)
    ensures |WithoutId(xs, idOf, id)| == |xs| - 1
  {
    var tail := xs[1..];
    var ids, tids := Ids(xs, idOf), Ids(tail, idOf);
    assert forall i :: 0 <= i < |tail| ==> tids[i] == ids[i + 1];
    var keep := NotId(idOf, id);
    assert WithoutId(xs, idOf, id) == (if keep(xs[0]) then [xs[0]] else []) + WithoutId(tail, idOf, id);
    if idOf(xs[0]) == id {
      assert id !in tids by {
        forall i | 0 <= i < |tids| ensures tids[i] != id {
          assert ids[0] != ids[i + 1];
        }
      }
      RemoveAbsentIsNoop(tail, idOf, id);
    } else {
      assert id in tids by {
        var k :| 0 <= k < |ids| && ids[k] == id;
        assert k > 0 && tids[k - 1] == id;
      }
      RemovePresentDropsOne(tail, idOf, id);
    }
  }

  /** With distinct ids, removing the id of the item at position `k` gives
      the list without that one item: everything before it and everything
      after it, unchanged and in order. */
  lemma RemoveAt<T>(xs: seq<T>, idOf: T -> string, k: nat)
    requires k < |xs| && Distinct(Ids(xs, idOf))
    ensures WithoutId(xs, idOf, idOf(xs[k])) == xs[..k] + xs[k + 1..]
  {
    var id := idOf(xs[k]);
    var front, back := xs[..k], xs[k + 1..];
    assert xs == front + ([xs[k]] + back);
    OthersCarryOtherIds(xs, idOf, k);
    FilterDropsOne(front, xs[k], back, NotId(idOf, id));
    RemoveAbsentIsNoop(front, idOf, id);
    RemoveAbsentIsNoop(back, idOf, id);
  }

  /** Filtering out one element in the middle leaves the filtered parts
      around it. */
  lemma FilterDropsOne<T>(front: seq<T>, x: T, back: seq<T>, keep: T -> bool)
    requires !keep(x)
    ensures Filter(front + ([x] + back), keep) == Filter(front, keep) + Filter(back, keep)
  {
    var rest := [x] + back;
    assert rest[0] == x && rest[1..] == back;
    assert Filter(rest, keep) == Filter(back, keep);
    FilterAppend(front, rest, keep);
  }

  /** With distinct ids, no item before or after position `k` carries the id
      of the item at `k`. */
  lemma OthersCarryOtherIds<T>(xs: seq<T>, idOf: T -> string, k: nat)
    requires k < |xs| && Distinct(Ids(xs, idOf))
    ensures idOf(xs[k]) !in Ids(xs[..k], idOf)
    ensures idOf(xs[k]) !in Ids(xs[k + 1..], idOf)
  {
    var id, ids := idOf(xs[k]), Ids(xs, idOf);
    var fids, bids := Ids(xs[..k], idOf), Ids(xs[k + 1..], idOf);
    assert ids[k] == id;
    forall i | 0 <= i < |fids| ensures fids[i] != id {
      assert fids[i] == ids[i];
    }
    forall i | 0 <= i < |bids| ensures bids[i] != id {
      assert bids[i] == ids[k + 1 + i];
    }
  }

}
