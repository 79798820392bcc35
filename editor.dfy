/**
 * The resume-record updaters of the editor: a contact change, a change of
 * the skills or summary text, and the replacement of one section's list,
 * together with the section editors' blank entries and titles.
 */
module Editor {
  import opened Collections
  import opened Types
  import opened EditorSection

  /**
   * A change event from the contact form. A text input carries the field's
   * name and its new value; a checkbox carries the flag's name and whether it
   * is checked.
   */
  datatype ContactInput =
    | TextInput(field: ContactText, value: string)
    | Checkbox(flag: ContactFlag, checked: bool)

  /** `handleContactChange`: the checkbox state for a checkbox, the value otherwise, written to the named contact field. */
  function ContactChange(r: Resume, input: ContactInput): (r': Resume)
    ensures r' == r.(contact := r'.contact)
    ensures input.TextInput? ==>
      && (forall g :: r'.contact.Text(g) == if g == input.field then input.value else r.contact.Text(g))
      && (forall g :: r'.contact.Flag(g) == r.contact.Flag(g))
    ensures input.Checkbox? ==>
      && (forall g :: r'.contact.Flag(g) == if g == input.flag then input.checked else r.contact.Flag(g))
      && (forall g :: r'.contact.Text(g) == r.contact.Text(g))
  {
    match input
    case TextInput(f, v) => r.(contact := r.contact.WithText(f, v))
    case Checkbox(f, b) => r.(contact := r.contact.WithFlag(f, b))
  }

  /** Two changes of the same contact field: the second one wins. */
  lemma ContactChangeOverwrites(r: Resume, a: ContactInput, b: ContactInput)
    requires (a.TextInput? && b.TextInput? && a.field == b.field) || (a.Checkbox? && b.Checkbox? && a.flag == b.flag)
    ensures ContactChange(ContactChange(r, a), b) == ContactChange(r, b)
  {
    ContactDeterminedByFields(ContactChange(ContactChange(r, a), b).contact, ContactChange(r, b).contact);
  }

  /** Writing back a contact field's current value changes nothing. */
  lemma ContactChangeSameValue(r: Resume, input: ContactInput)
    requires input.TextInput? ==> input.value == r.contact.Text(input.field)
    requires input.Checkbox? ==> input.checked == r.contact.Flag(input.flag)
    ensures ContactChange(r, input) == r
  {
    ContactDeterminedByFields(ContactChange(r, input).contact, r.contact);
  }

  /** The top-level text fields `handleSimpleChange` serves. */
  datatype SimpleField = Skills | Summary

  function Simple(r: Resume, f: SimpleField): string
  {
    match f
    case Skills => r.skills
    case Summary => r.summary
  }

  /** `handleSimpleChange`: `{ ...prev, [name]: value }`. */
  function SimpleChange(r: Resume, f: SimpleField, value: string): (r': Resume)
    ensures Simple(r', f) == value
    ensures forall g :: g != f ==> Simple(r', g) == Simple(r, g)
    ensures r'.contact == r.contact && r'.experience == r.experience && r'.projects == r.projects
    ensures r'.education == r.education && r'.certifications == r.certifications
  {
    match f
    case Skills => r.(skills := value)
    case Summary => r.(summary := value)
  }

  /** Writing back the current text changes nothing, and of two writes the second wins. */
  lemma SimpleChangeLaws(r: Resume, f: SimpleField, v: string, w: string)
    ensures SimpleChange(r, f, Simple(r, f)) == r
    ensures SimpleChange(SimpleChange(r, f, v), f, w) == SimpleChange(r, f, w)
  {
  }

  // ---------------------------------------------------------------------
  // The four list sections

  datatype Section = ExperienceSection | ProjectSection | EducationSection | CertificationSection

  /** The title each section editor is given; new ids start with its lower-cased form. */
  function SectionTitle(s: Section): string
  {
    match s
    case ExperienceSection => "Experience"
    case ProjectSection => "Project"
    case EducationSection => "Education"
    case CertificationSection => "Certifications"
  }

  /** The list one section editor works on. */
  datatype SectionItems =
    | ExperienceItems(experience: seq<Experience>)
    | ProjectItems(projects: seq<Project>)
    | EducationItems(education: seq<Education>)
    | CertificationItems(certifications: seq<Certification>)
  {
    function SectionOf(): Section
    {
      match this
      case ExperienceItems(_) => ExperienceSection
      case ProjectItems(_) => ProjectSection
      case EducationItems(_) => EducationSection
      case CertificationItems(_) => CertificationSection
    }

    function Ids(): (ids: seq<string>)
    {
      match this
      case ExperienceItems(xs) => Map(xs, ExperienceSchema.id)
      case ProjectItems(xs) => Map(xs, ProjectSchema.id)
      case EducationItems(xs) => Map(xs, EducationSchema.id)
      case CertificationItems(xs) => Map(xs, CertificationSchema.id)
    }
  }

  function ItemsOf(r: Resume, s: Section): (items: SectionItems)
    ensures items.SectionOf() == s
  {
    match s
    case ExperienceSection => ExperienceItems(r.experience)
    case ProjectSection => ProjectItems(r.projects)
    case EducationSection => EducationItems(r.education)
    case CertificationSection => CertificationItems(r.certifications)
  }

  /** A section's `setItems`: replace that section's list and nothing else. */
  function SetItems(r: Resume, items: SectionItems): (r': Resume)
    ensures ItemsOf(r', items.SectionOf()) == items
    ensures forall s :: s != items.SectionOf() ==> ItemsOf(r', s) == ItemsOf(r, s)
    ensures r'.contact == r.contact && r'.skills == r.skills && r'.summary == r.summary
  {
    match items
    case ExperienceItems(xs) => r.(experience := xs)
    case ProjectItems(xs) => r.(projects := xs)
    case EducationItems(xs) => r.(education := xs)
    case CertificationItems(xs) => r.(certifications := xs)
  }

  /** Setting a section to its own list changes nothing. */
  lemma SetItemsOwnList(r: Resume, s: Section)
    ensures SetItems(r, ItemsOf(r, s)) == r
  {
  }

  // ---------------------------------------------------------------------
  // Blank entries and the schemas the section editors use

  const BlankExperience: Experience := Experience("", "", "", "", "", "", "")
  const BlankProject: Project := Project("", "", "", "", "", "", "")
  const BlankEducation: Education := Education("", "", "", "", "", "", "", "")
  const BlankCertification: Certification := Certification("", "", "", "", "")

  /** Every field of a blank entry is the empty string. */
  lemma BlankEntriesAreEmpty()
    ensures forall f :: BlankExperience.Get(f) == ""
    ensures forall f :: BlankProject.Get(f) == ""
    ensures forall f :: BlankEducation.Get(f) == ""
    ensures forall f :: BlankCertification.Get(f) == ""
  {
  }

  const ExperienceSchema: Schema<Experience, ExperienceField> :=
    Schema((x: Experience) => x.id, (x: Experience, i) => x.(id := i), (x: Experience, f) => x.Get(f), (x: Experience, f, v) => x.With(f, v))
  const ProjectSchema: Schema<Project, ProjectField> :=
    Schema((x: Project) => x.id, (x: Project, i) => x.(id := i), (x: Project, f) => x.Get(f), (x: Project, f, v) => x.With(f, v))
  const EducationSchema: Schema<Education, EducationField> :=
    Schema((x: Education) => x.id, (x: Education, i) => x.(id := i), (x: Education, f) => x.Get(f), (x: Education, f, v) => x.With(f, v))
  const CertificationSchema: Schema<Certification, CertificationField> :=
    Schema((x: Certification) => x.id, (x: Certification, i) => x.(id := i), (x: Certification, f) => x.Get(f), (x: Certification, f, v) => x.With(f, v))

  /** The entry records obey the spread laws the section editor relies on. */
  lemma SchemasLawful()
    ensures Lawful(ExperienceSchema) && Lawful(ProjectSchema)
    ensures Lawful(EducationSchema) && Lawful(CertificationSchema)
  {
    ExperienceSchemaLawful();
    ProjectSchemaLawful();
    EducationSchemaLawful();
    CertificationSchemaLawful();
  }

  lemma ExperienceSchemaLawful()
    ensures Lawful(ExperienceSchema)
  {
  }

  lemma ProjectSchemaLawful()
    ensures Lawful(ProjectSchema)
  {
  }

  lemma EducationSchemaLawful()
    ensures Lawful(EducationSchema)
  {
  }

  lemma CertificationSchemaLawful()
    ensures Lawful(CertificationSchema)
  {
  }

  /** "Add to <title>" in one section: a blank entry with a fresh id at the end of that section's list. */
  function AddEntry(r: Resume, s: Section, now: nat): (r': Resume)
    ensures ItemsOf(r', s).Ids() == ItemsOf(r, s).Ids() + [NewId(SectionTitle(s), now)]
    ensures s == ExperienceSection ==> r'.experience == r.experience + [BlankExperience.(id := NewId("Experience", now))]
    ensures s == ProjectSection ==> r'.projects == r.projects + [BlankProject.(id := NewId("Project", now))]
    ensures s == EducationSection ==> r'.education == r.education + [BlankEducation.(id := NewId("Education", now))]
    ensures s == CertificationSection ==>
      r'.certifications == r.certifications + [BlankCertification.(id := NewId("Certifications", now))]
    ensures forall t :: t != s ==> ItemsOf(r', t) == ItemsOf(r, t)
    ensures r'.contact == r.contact && r'.skills == r.skills && r'.summary == r.summary
  {
    match s
    case ExperienceSection =>
      ExperienceSchemaLawful();
      var xs := AddItem(ExperienceSchema, r.experience, BlankExperience, "Experience", now);
      AddItemIds(ExperienceSchema, r.experience, BlankExperience, "Experience", now);
      assert xs == r.experience + [BlankExperience.(id := NewId("Experience", now))];
      SetItems(r, ExperienceItems(xs))
    case ProjectSection =>
      ProjectSchemaLawful();
      var xs := AddItem(ProjectSchema, r.projects, BlankProject, "Project", now);
      AddItemIds(ProjectSchema, r.projects, BlankProject, "Project", now);
      assert xs == r.projects + [BlankProject.(id := NewId("Project", now))];
      SetItems(r, ProjectItems(xs))
    case EducationSection =>
      EducationSchemaLawful();
      var xs := AddItem(EducationSchema, r.education, BlankEducation, "Education", now);
      AddItemIds(EducationSchema, r.education, BlankEducation, "Education", now);
      assert xs == r.education + [BlankEducation.(id := NewId("Education", now))];
      SetItems(r, EducationItems(xs))
    case CertificationSection =>
      CertificationSchemaLawful();
      var xs := AddItem(CertificationSchema, r.certifications, BlankCertification, "Certifications", now);
      AddItemIds(CertificationSchema, r.certifications, BlankCertification, "Certifications", now);
      assert xs == r.certifications + [BlankCertification.(id := NewId("Certifications", now))];
      SetItems(r, CertificationItems(xs))
  }

  /** "Remove" in one section: drop the entries with that id from that section's list. */
  function RemoveEntry(r: Resume, s: Section, id: string): (r': Resume)
    ensures ItemsOf(r', s).Ids() == Filter(ItemsOf(r, s).Ids(), (x: string) => x != id)
    ensures s == ExperienceSection ==> RemovedById(ExperienceSchema, r.experience, r'.experience, id)
    ensures s == ProjectSection ==> RemovedById(ProjectSchema, r.projects, r'.projects, id)
    ensures s == EducationSection ==> RemovedById(EducationSchema, r.education, r'.education, id)
    ensures s == CertificationSection ==> RemovedById(CertificationSchema, r.certifications, r'.certifications, id)
    ensures forall t :: t != s ==> ItemsOf(r', t) == ItemsOf(r, t)
    ensures r'.contact == r.contact && r'.skills == r.skills && r'.summary == r.summary
  {
    match s
    case ExperienceSection =>
      RemoveItemIds(ExperienceSchema, r.experience, id);
      SetItems(r, ExperienceItems(RemoveItem(ExperienceSchema, r.experience, id)))
    case ProjectSection =>
      RemoveItemIds(ProjectSchema, r.projects, id);
      SetItems(r, ProjectItems(RemoveItem(ProjectSchema, r.projects, id)))
    case EducationSection =>
      RemoveItemIds(EducationSchema, r.education, id);
      SetItems(r, EducationItems(RemoveItem(EducationSchema, r.education, id)))
    case CertificationSection =>
      RemoveItemIds(CertificationSchema, r.certifications, id);
      SetItems(r, CertificationItems(RemoveItem(CertificationSchema, r.certifications, id)))
  }
}
