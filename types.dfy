/**
 * The resume record the editor mutates, the templates render and the
 * analyser reads. Field names follow the record's JSON keys in lowerCamelCase
 * (`full_name` is `fullName`, `state_show_on_resume` is `stateShown`).
 *
 * Every section entry is a record of an `id` and named string fields; the
 * editor addresses those fields by name, so each entry type comes with an
 * enumeration of its field names, a getter and a single-field update.
 */
module Types {

  /** The string-valued contact fields; the editor binds each to a text input. */
  datatype ContactText = FullName | Email | Phone | LinkedinUrl | PersonalWebsite | Country | State

  /** The boolean contact fields; the editor binds the last two to checkboxes. */
  datatype ContactFlag = ShowOnResume | CountryShown | StateShown

  datatype Contact = Contact(
    fullName: string,
    email: string,
    phone: string,
    linkedinUrl: string,
    personalWebsite: string,
    showOnResume: bool,
    country: string,
    countryShown: bool,
    state: string,
    stateShown: bool)
  {
    function Text(f: ContactText): string
    {
      match f
      case FullName => fullName
      case Email => email
      case Phone => phone
      case LinkedinUrl => linkedinUrl
      case PersonalWebsite => personalWebsite
      case Country => country
      case State => state
    }

    function Flag(f: ContactFlag): bool
    {
      match f
      case ShowOnResume => showOnResume
      case CountryShown => countryShown
      case StateShown => stateShown
    }

    /** `{ ...contact, [f]: v }` for a string field. */
    function WithText(f: ContactText, v: string): (c: Contact)
      ensures forall g :: c.Text(g) == if g == f then v else Text(g)
      ensures forall g :: c.Flag(g) == Flag(g)
    {
      match f
      case FullName => this.(fullName := v)
      case Email => this.(email := v)
      case Phone => this.(phone := v)
      case LinkedinUrl => this.(linkedinUrl := v)
      case PersonalWebsite => this.(personalWebsite := v)
      case Country => this.(country := v)
      case State => this.(state := v)
    }

    /** `{ ...contact, [f]: b }` for a boolean field. */
    function WithFlag(f: ContactFlag, b: bool): (c: Contact)
      ensures forall g :: c.Flag(g) == if g == f then b else Flag(g)
      ensures forall g :: c.Text(g) == Text(g)
    {
      match f
      case ShowOnResume => this.(showOnResume := b)
      case CountryShown => this.(countryShown := b)
      case StateShown => this.(stateShown := b)
    }
  }

  /** Text and Flag between them see every field: contacts that agree on all of them are equal. */
  lemma ContactDeterminedByFields(a: Contact, b: Contact)
    requires forall f :: a.Text(f) == b.Text(f)
    requires forall f :: a.Flag(f) == b.Flag(f)
    ensures a == b
  {
    assert a.Text(FullName) == b.Text(FullName) && a.Text(Email) == b.Text(Email);
    assert a.Text(Phone) == b.Text(Phone) && a.Text(LinkedinUrl) == b.Text(LinkedinUrl);
    assert a.Text(PersonalWebsite) == b.Text(PersonalWebsite);
    assert a.Text(Country) == b.Text(Country) && a.Text(State) == b.Text(State);
    assert a.Flag(ShowOnResume) == b.Flag(ShowOnResume);
    assert a.Flag(CountryShown) == b.Flag(CountryShown) && a.Flag(StateShown) == b.Flag(StateShown);
  }

  datatype ExperienceField = Role | Company | ExperienceStart | ExperienceEnd | ExperienceLocation | ExperienceDescription

  datatype Experience = Experience(
    id: string,
    role: string,
    company: string,
    startDate: string,
    endDate: string,
    location: string,
    description: string)
  {
    function Get(f: ExperienceField): string
    {
      match f
      case Role => role
      case Company => company
      case ExperienceStart => startDate
      case ExperienceEnd => endDate
      case ExperienceLocation => location
      case ExperienceDescription => description
    }

    /** `{ ...experience, [f]: v }`. */
    function With(f: ExperienceField, v: string): (e: Experience)
      ensures e.id == id
      ensures forall g :: e.Get(g) == if g == f then v else Get(g)
    {
      match f
      case Role => this.(role := v)
      case Company => this.(company := v)
      case ExperienceStart => this.(startDate := v)
      case ExperienceEnd => this.(endDate := v)
      case ExperienceLocation => this.(location := v)
      case ExperienceDescription => this.(description := v)
    }
  }

  datatype ProjectField = Title | Organization | ProjectStart | ProjectEnd | ProjectUrl | ProjectDescription

  datatype Project = Project(
    id: string,
    title: string,
    organization: string,
    startDate: string,
    endDate: string,
    projectUrl: string,
    description: string)
  {
    function Get(f: ProjectField): string
    {
      match f
      case Title => title
      case Organization => organization
      case ProjectStart => startDate
      case ProjectEnd => endDate
      case ProjectUrl => projectUrl
      case ProjectDescription => description
    }

    /** `{ ...project, [f]: v }`. */
    function With(f: ProjectField, v: string): (p: Project)
      ensures p.id == id
      ensures forall g :: p.Get(g) == if g == f then v else Get(g)
    {
      match f
      case Title => this.(title := v)
      case Organization => this.(organization := v)
      case ProjectStart => this.(startDate := v)
      case ProjectEnd => this.(endDate := v)
      case ProjectUrl => this.(projectUrl := v)
      case ProjectDescription => this.(description := v)
    }
  }

  datatype EducationField = Degree | Institution | EducationLocation | GraduationYear | Minor | Gpa | AdditionalInfo

  datatype Education = Education(
    id: string,
    degree: string,
    institution: string,
    location: string,
    graduationYear: string,
    minor: string,
    gpa: string,
    additionalInfo: string)
  {
    function Get(f: EducationField): string
    {
      match f
      case Degree => degree
      case Institution => institution
      case EducationLocation => location
      case GraduationYear => graduationYear
      case Minor => minor
      case Gpa => gpa
      case AdditionalInfo => additionalInfo
    }

    /** `{ ...education, [f]: v }`. */
    function With(f: EducationField, v: string): (e: Education)
      ensures e.id == id
      ensures forall g :: e.Get(g) == if g == f then v else Get(g)
    {
      match f
      case Degree => this.(degree := v)
      case Institution => this.(institution := v)
      case EducationLocation => this.(location := v)
      case GraduationYear => this.(graduationYear := v)
      case Minor => this.(minor := v)
      case Gpa => this.(gpa := v)
      case AdditionalInfo => this.(additionalInfo := v)
    }
  }

  datatype CertificationField = CertificateName | IssuingOrganization | IssueYear | Relevance

  datatype Certification = Certification(
    id: string,
    certificateName: string,
    issuingOrganization: string,
    issueYear: string,
    relevance: string)
  {
    function Get(f: CertificationField): string
    {
      match f
      case CertificateName => certificateName
      case IssuingOrganization => issuingOrganization
      case IssueYear => issueYear
      case Relevance => relevance
    }

    /** `{ ...certification, [f]: v }`. */
    function With(f: CertificationField, v: string): (c: Certification)
      ensures c.id == id
      ensures forall g :: c.Get(g) == if g == f then v else Get(g)
    {
      match f
      case CertificateName => this.(certificateName := v)
      case IssuingOrganization => this.(issuingOrganization := v)
      case IssueYear => this.(issueYear := v)
      case Relevance => this.(relevance := v)
    }
  }

  datatype Resume = Resume(
    contact: Contact,
    experience: seq<Experience>,
    projects: seq<Project>,
    education: seq<Education>,
    certifications: seq<Certification>,
    skills: string,
    summary: string)
}
