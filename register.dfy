/**
 * The five-step registration wizard: the draft profile it collects, the
 * per-step validation gate, the list editors of steps 3 and 4, and the
 * multipart payload the final step submits.
 */
module Register {
  import opened Wrappers
  import opened Http
  import opened Seqs
  import opened TagList
  import opened Profile
  import opened FormData
  import AuthProvider
  import opened Api

  const TotalSteps := 5
  const SubmitFallback := "Failed to create account."
  const DashboardPath := "/dashboard"

  const RequiredFieldsMessage := "Please fill in all required fields"
  const EnterPasswordMessage := "Please enter password"
  const MismatchMessage := "Passwords do not match"
  const ShortPasswordMessage := "Password must be at least 8 characters long"
  const TermsMessage := "Please agree to the Terms of Services"
  const ProfessionalMessage := "Please fill in required fields"
  const PreferencesMessage := "Please select at least one desired job title and work mode"
  const MinPasswordLength := 8

  /** The draft profile (`formData`). Files are `None` until chosen. */
  datatype Draft = Draft(
    firstName: string, lastName: string, email: string, phone: string,
    location: string, linkedin: string, portfolio: string,
    profilePicture: Option<FileRef>,
    password: string, confirmPassword: string,
    jobTitle: string, yearsOfExperience: string, experienceLevel: string,
    currentCompany: string, industry: string, professionalSummary: string,
    primarySkills: seq<string>, secondarySkills: seq<string>,
    technicalSkills: seq<string>, softSkills: seq<string>,
    certifications: seq<Certification>, languages: seq<LanguageEntry>,
    education: seq<Education>,
    desiredJobTitles: seq<string>, preferredLocations: seq<string>,
    workMode: seq<string>, jobType: seq<string>,
    salaryMin: string, salaryMax: string, salaryCurrency: string,
    companySize: seq<string>, preferredIndustries: seq<string>,
    resume: Option<FileRef>)

  const InitialDraft := Draft(
    "", "", "", "", "", "", "", None, "", "",
    "", "", "", "", "", "",
    [], [], [], [], [], [], [],
    [], [], [], [],
    "", "", "USD",
    [], [], None)

  /** The draft's text fields, each set by its input's change handler. */
  datatype TextField =
    | FirstName | LastName | Email | Phone | Location | Linkedin | Portfolio
    | Password | ConfirmPassword
    | JobTitle | YearsOfExperience | ExperienceLevel | CurrentCompany | Industry | ProfessionalSummary
    | SalaryMin | SalaryMax | SalaryCurrency

  /** The draft's string-list fields. */
  datatype TagField =
    | PrimarySkills | SecondarySkills | TechnicalSkills | SoftSkills
    | DesiredJobTitles | PreferredLocations | WorkMode | JobType
    | CompanySize | PreferredIndustries

  /** Every list field `removeFromArray` can be applied to. */
  datatype ListField = TagList(field: TagField) | CertificationList | LanguageList | EducationList

  /** The file fields. */
  datatype FileField = ProfilePicture | Resume

  function Text(d: Draft, f: TextField): string {
    match f
    case FirstName => d.firstName
    case LastName => d.lastName
    case Email => d.email
    case Phone => d.phone
    case Location => d.location
    case Linkedin => d.linkedin
    case Portfolio => d.portfolio
    case Password => d.password
    case ConfirmPassword => d.confirmPassword
    case JobTitle => d.jobTitle
    case YearsOfExperience => d.yearsOfExperience
    case ExperienceLevel => d.experienceLevel
    case CurrentCompany => d.currentCompany
    case Industry => d.industry
    case ProfessionalSummary => d.professionalSummary
    case SalaryMin => d.salaryMin
    case SalaryMax => d.salaryMax
    case SalaryCurrency => d.salaryCurrency
  }

  /** `{ ...formData, [name]: value }` for a text field. */
  function WithText(d: Draft, f: TextField, v: string): Draft {
    match f
    case FirstName => d.(firstName := v)
    case LastName => d.(lastName := v)
    case Email => d.(email := v)
    case Phone => d.(phone := v)
    case Location => d.(location := v)
    case Linkedin => d.(linkedin := v)
    case Portfolio => d.(portfolio := v)
    case Password => d.(password := v)
    case ConfirmPassword => d.(confirmPassword := v)
    case JobTitle => d.(jobTitle := v)
    case YearsOfExperience => d.(yearsOfExperience := v)
    case ExperienceLevel => d.(experienceLevel := v)
    case CurrentCompany => d.(currentCompany := v)
    case Industry => d.(industry := v)
    case ProfessionalSummary => d.(professionalSummary := v)
    case SalaryMin => d.(salaryMin := v)
    case SalaryMax => d.(salaryMax := v)
    case SalaryCurrency => d.(salaryCurrency := v)
  }

  function Tags(d: Draft, f: TagField): seq<string> {
    match f
    case PrimarySkills => d.primarySkills
    case SecondarySkills => d.secondarySkills
    case TechnicalSkills => d.technicalSkills
    case SoftSkills => d.softSkills
    case DesiredJobTitles => d.desiredJobTitles
    case PreferredLocations => d.preferredLocations
    case WorkMode => d.workMode
    case JobType => d.jobType
    case CompanySize => d.companySize
    case PreferredIndustries => d.preferredIndustries
  }

  /** `{ ...formData, [field]: xs }` for a list field. */
  function WithTags(d: Draft, f: TagField, xs: seq<string>): Draft {
    match f
    case PrimarySkills => d.(primarySkills := xs)
    case SecondarySkills => d.(secondarySkills := xs)
    case TechnicalSkills => d.(technicalSkills := xs)
    case SoftSkills => d.(softSkills := xs)
    case DesiredJobTitles => d.(desiredJobTitles := xs)
    case PreferredLocations => d.(preferredLocations := xs)
    case WorkMode => d.(workMode := xs)
    case JobType => d.(jobType := xs)
    case CompanySize => d.(companySize := xs)
    case PreferredIndustries => d.(preferredIndustries := xs)
  }

  /** Writing a list field and reading it back gives what was written; other list fields are untouched. */
  lemma TagsAfterWithTags(d: Draft, f: TagField, xs: seq<string>)
    ensures Tags(WithTags(d, f, xs), f) == xs
    ensures forall g :: g != f ==> Tags(WithTags(d, f, xs), g) == Tags(d, g)
    ensures forall t :: Text(WithTags(d, f, xs), t) == Text(d, t)
  {
  }

  /**
   * A list-field update changes that field only: two drafts that differ
   * only in `f` become equal once `f` is overwritten.
   */
  lemma WithTagsOnlyTouches(d: Draft, f: TagField, xs: seq<string>, ys: seq<string>)
    ensures WithTags(WithTags(d, f, xs), f, ys) == WithTags(d, f, ys)
    ensures WithTags(d, f, Tags(d, f)) == d
  {
  }

  /** Writing a text field and reading it back gives what was written; every other field is untouched. */
  lemma TextAfterWithText(d: Draft, f: TextField, v: string)
    ensures Text(WithText(d, f, v), f) == v
    ensures forall t :: t != f ==> Text(WithText(d, f, v), t) == Text(d, t)
    ensures forall g :: Tags(WithText(d, f, v), g) == Tags(d, g)
  {
  }

  /** What a step needs before Next may leave it. */
  predicate StepRequirementsMet(step: int, d: Draft, agreedToTerms: bool) {
    && (step == 1 ==>
          && d.firstName != "" && d.lastName != "" && d.email != ""
          && d.phone != "" && d.location != ""
          && d.password != "" && d.confirmPassword != ""
          && d.password == d.confirmPassword
          && |d.password| >= MinPasswordLength
          && agreedToTerms)
    && (step == 2 ==> d.jobTitle != "" && d.yearsOfExperience != "" && d.experienceLevel != "")
    && (step == 4 ==> |d.desiredJobTitles| > 0 && |d.workMode| > 0)
  }

  /**
   * `validateStep`: `None` when the step passes, otherwise the message of
   * the first check that fails, the checks running in a fixed order.
   */
  function StepError(step: int, d: Draft, agreedToTerms: bool): (r: Option<string>)
    ensures r.None? <==> StepRequirementsMet(step, d, agreedToTerms)
    ensures step == 1 ==>
      var required := d.firstName != "" && d.lastName != "" && d.email != "" && d.phone != "" && d.location != "";
      var entered := d.password != "" && d.confirmPassword != "";
      && (r == Some(RequiredFieldsMessage) <==> !required)
      && (r == Some(EnterPasswordMessage) <==> required && !entered)
      && (r == Some(MismatchMessage) <==> required && entered && d.password != d.confirmPassword)
      && (r == Some(ShortPasswordMessage) <==>
            required && entered && d.password == d.confirmPassword && |d.password| < MinPasswordLength)
      && (r == Some(TermsMessage) <==>
            required && entered && d.password == d.confirmPassword && |d.password| >= MinPasswordLength && !agreedToTerms)
    ensures step == 2 && r.Some? ==> r.value == ProfessionalMessage
    ensures step == 4 && r.Some? ==> r.value == PreferencesMessage
    ensures step != 1 && step != 2 && step != 4 ==> r.None?
  {
    if step == 1 then
      if d.firstName == "" || d.lastName == "" || d.email == "" || d.phone == "" || d.location == "" then
        Some(RequiredFieldsMessage)
      else if d.password == "" || d.confirmPassword == "" then Some(EnterPasswordMessage)
      else if d.password != d.confirmPassword then Some(MismatchMessage)
      else if |d.password| < MinPasswordLength then Some(ShortPasswordMessage)
      else if !agreedToTerms then Some(TermsMessage)
      else None
    else if step == 2 then
      if d.jobTitle == "" || d.yearsOfExperience == "" || d.experienceLevel == "" then Some(ProfessionalMessage)
      else None
    else if step == 4 then
      if |d.desiredJobTitles| == 0 || |d.workMode| == 0 then Some(PreferencesMessage)
      else None
    else None
  }

  /** The part names of each group of the payload, in the order they are appended. */
  const BasicNames: seq<string> := ["name", "email", "password", "phone", "location", "linkedin", "portfolio"]
  const ProfessionalNames: seq<string> :=
    ["jobTitle", "yearsOfExperience", "experienceLevel", "currentCompany", "industry", "professionalSummary"]
  const SkillNames: seq<string> :=
    ["primarySkills", "secondarySkills", "technicalSkills", "softSkills", "certifications", "languages", "education"]
  const PreferenceNames: seq<string> :=
    ["desiredJobTitles", "preferredLocations", "workMode", "jobType",
     "salaryMin", "salaryMax", "salaryCurrency", "companySize", "preferredIndustries"]

  /** The 29 part names of the payload, files excluded. */
  const PartNames: seq<string> := BasicNames + ProfessionalNames + SkillNames + PreferenceNames

  /** The part name a list field is sent under. */
  function TagName(f: TagField): (n: string)
    ensures n in SkillNames || n in PreferenceNames
    ensures n in PartNames
  {
    match f
    case PrimarySkills => "primarySkills"
    case SecondarySkills => "secondarySkills"
    case TechnicalSkills => "technicalSkills"
    case SoftSkills => "softSkills"
    case DesiredJobTitles => "desiredJobTitles"
    case PreferredLocations => "preferredLocations"
    case WorkMode => "workMode"
    case JobType => "jobType"
    case CompanySize => "companySize"
    case PreferredIndustries => "preferredIndustries"
  }

  /** The basic fields: the full name, the contact details and the links. */
  function BasicParts(d: Draft): seq<Part> {
    [ TextPart("name", d.firstName + " " + d.lastName),
      TextPart("email", d.email),
      TextPart("password", d.password),
      TextPart("phone", d.phone),
      TextPart("location", d.location),
      TextPart("linkedin", d.linkedin),
      TextPart("portfolio", d.portfolio) ]
  }

  /** The professional fields, as text. */
  function ProfessionalParts(d: Draft): seq<Part> {
    [ TextPart("jobTitle", d.jobTitle),
      TextPart("yearsOfExperience", d.yearsOfExperience),
      TextPart("experienceLevel", d.experienceLevel),
      TextPart("currentCompany", d.currentCompany),
      TextPart("industry", d.industry),
      TextPart("professionalSummary", d.professionalSummary) ]
  }

  /** The skill lists and the records of step 3, each as JSON. */
  function SkillParts(d: Draft): seq<Part> {
    [ JsonPart("primarySkills", JStrings(d.primarySkills)),
      JsonPart("secondarySkills", JStrings(d.secondarySkills)),
      JsonPart("technicalSkills", JStrings(d.technicalSkills)),
      JsonPart("softSkills", JStrings(d.softSkills)),
      JsonPart("certifications", JCertifications(d.certifications)),
      JsonPart("languages", JLanguages(d.languages)),
      JsonPart("education", JEducation(d.education)) ]
  }

  /** The preferences of step 4: lists as JSON, the salary fields as text. */
  function PreferenceParts(d: Draft): seq<Part> {
    [ JsonPart("desiredJobTitles", JStrings(d.desiredJobTitles)),
      JsonPart("preferredLocations", JStrings(d.preferredLocations)),
      JsonPart("workMode", JStrings(d.workMode)),
      JsonPart("jobType", JStrings(d.jobType)),
      TextPart("salaryMin", d.salaryMin),
      TextPart("salaryMax", d.salaryMax),
      TextPart("salaryCurrency", d.salaryCurrency),
      JsonPart("companySize", JStrings(d.companySize)),
      JsonPart("preferredIndustries", JStrings(d.preferredIndustries)) ]
  }

  /** The text and JSON parts, appended in every submission. */
  function FieldParts(d: Draft): seq<Part> {
    BasicParts(d) + ProfessionalParts(d) + SkillParts(d) + PreferenceParts(d)
  }

  /** The file parts: each file only when one was chosen. */
  function FileParts(d: Draft): seq<Part> {
    (if d.profilePicture.Some? then [FilePart("profilePicture", d.profilePicture.value)] else [])
    + (if d.resume.Some? then [FilePart("resume", d.resume.value)] else [])
  }

  /** The multipart payload `handleSubmit` builds from the draft. */
  function Serialize(d: Draft): seq<Part> {
    FieldParts(d) + FileParts(d)
  }

  /** The names of a list of parts. */
  function Names(parts: seq<Part>): (r: seq<string>)
    ensures |r| == |parts| && forall i :: 0 <= i < |parts| ==> r[i] == parts[i].name
  {
    seq(|parts|, i requires 0 <= i < |parts| => parts[i].name)
  }

  lemma NamesAppend(a: seq<Part>, b: seq<Part>)
    ensures Names(a + b) == Names(a) + Names(b)
  {
  }

  /** A name carried by no part is counted zero times. */
  lemma {:induction false} CountNamedAbsent(parts: seq<Part>, name: string)
    requires name !in Names(parts)
    ensures CountNamed(parts, name) == 0
  {
    if parts != [] {
      assert Names(parts[1..]) == Names(parts)[1..];
      CountNamedAbsent(parts[1..], name);
    }
  }

  /** When part names are distinct, each name present is counted once. */
  lemma {:induction false} CountNamedUnique(parts: seq<Part>, name: string)
    requires NoDuplicates(Names(parts))
    requires name in Names(parts)
    ensures CountNamed(parts, name) == 1
  {
    assert Names(parts[1..]) == Names(parts)[1..];
    if parts[0].name == name {
      CountNamedAbsent(parts[1..], name);
    } else {
      CountNamedUnique(parts[1..], name);
    }
  }

  lemma GroupNamesDistinct()
    ensures NoDuplicates(BasicNames) && NoDuplicates(ProfessionalNames)
    ensures NoDuplicates(SkillNames) && NoDuplicates(PreferenceNames)
  {
  }

  lemma BasicNamesApart()
    ensures Disjoint(BasicNames, ProfessionalNames) && Disjoint(BasicNames, SkillNames)
    ensures Disjoint(BasicNames, PreferenceNames)
  {
  }

  lemma LaterNamesApart()
    ensures Disjoint(ProfessionalNames, SkillNames) && Disjoint(ProfessionalNames, PreferenceNames)
    ensures Disjoint(SkillNames, PreferenceNames)
  {
  }

  /** No part name is appended twice: distinct within each group, and no group shares a name with another. */
  lemma PartNamesDistinct()
    ensures NoDuplicates(PartNames)
  {
    var b, p, s, r := BasicNames, ProfessionalNames, SkillNames, PreferenceNames;
    GroupNamesDistinct();
    BasicNamesApart();
    LaterNamesApart();
    NoDuplicatesAppend(b, p);
    DisjointAppendLeft(b, p, s);
    NoDuplicatesAppend(b + p, s);
    DisjointAppendLeft(b, p, r);
    DisjointAppendLeft(b + p, s, r);
    NoDuplicatesAppend(b + p + s, r);
  }

  /** The text and JSON parts carry exactly the names listed in `PartNames`. */
  lemma FieldPartNames(d: Draft)
    ensures Names(FieldParts(d)) == PartNames
  {
    var b, p, s, r := BasicParts(d), ProfessionalParts(d), SkillParts(d), PreferenceParts(d);
    assert Names(b) == BasicNames;
    assert Names(p) == ProfessionalNames;
    assert Names(s) == SkillNames;
    assert Names(r) == PreferenceNames;
    NamesAppend(b, p);
    NamesAppend(b + p, s);
    NamesAppend(b + p + s, r);
  }

  /** The file parts carry only the names "profilePicture" and "resume", and are all files. */
  lemma FilePartsShape(d: Draft)
    ensures forall i :: 0 <= i < |FileParts(d)| ==>
      FileParts(d)[i].FilePart? && FileParts(d)[i].name in ["profilePicture", "resume"]
  {
  }

  /** Each name of `PartNames` is carried by exactly one text or JSON part. */
  lemma FieldPartsCount(d: Draft, name: string)
    requires name in PartNames
    ensures CountNamed(FieldParts(d), name) == 1
  {
    FieldPartNames(d);
    PartNamesDistinct();
    CountNamedUnique(FieldParts(d), name);
  }

  /** The two file names are not among `PartNames`. */
  lemma FileNamesOutside()
    ensures "profilePicture" !in PartNames && "resume" !in PartNames
  {
    assert "profilePicture" !in BasicNames && "resume" !in BasicNames;
    assert "profilePicture" !in ProfessionalNames && "resume" !in ProfessionalNames;
    assert "profilePicture" !in SkillNames && "resume" !in SkillNames;
    assert "profilePicture" !in PreferenceNames && "resume" !in PreferenceNames;
  }

  /** A name of `PartNames` is neither file name. */
  lemma FileNamesApart(name: string)
    requires name in PartNames
    ensures name != "profilePicture" && name != "resume"
  {
    FileNamesOutside();
  }

  /** The file parts carry no name but the two file names. */
  lemma FilePartsCount(d: Draft, name: string)
    requires name != "profilePicture" && name != "resume"
    ensures CountNamed(FileParts(d), name) == 0
  {
    FilePartsShape(d);
    CountNamedAbsent(FileParts(d), name);
  }

  /** A name from `PartNames` is carried by exactly one part of the payload. */
  lemma CountInSerialize(d: Draft, name: string)
    requires name in PartNames
    ensures CountNamed(Serialize(d), name) == 1
  {
    FieldPartsCount(d, name);
    FileNamesApart(name);
    FilePartsCount(d, name);
    CountAppend(FieldParts(d), FileParts(d), name);
  }

  /** A name outside `PartNames` and other than the two file names is carried by no part. */
  lemma CountNotInSerialize(d: Draft, name: string)
    requires name !in PartNames && name != "profilePicture" && name != "resume"
    ensures CountNamed(Serialize(d), name) == 0
  {
    FieldPartNames(d);
    CountNamedAbsent(FieldParts(d), name);
    FilePartsCount(d, name);
    CountAppend(FieldParts(d), FileParts(d), name);
  }

  /** A part of one of the four groups is a part of the payload. */
  lemma InSerialize(d: Draft, part: Part)
    requires part in BasicParts(d) || part in ProfessionalParts(d) || part in SkillParts(d) || part in PreferenceParts(d)
    ensures part in Serialize(d)
  {
    var b, p, s, r := BasicParts(d), ProfessionalParts(d), SkillParts(d), PreferenceParts(d);
    assert Serialize(d) == b + p + s + r + FileParts(d);
  }

  /** The skill lists are sent among the skill parts. */
  lemma SkillListPart(d: Draft, f: TagField)
    requires f.PrimarySkills? || f.SecondarySkills? || f.TechnicalSkills? || f.SoftSkills?
    ensures JsonPart(TagName(f), JStrings(Tags(d, f))) in SkillParts(d)
  {
    var part := JsonPart(TagName(f), JStrings(Tags(d, f)));
    match f
    case PrimarySkills => assert SkillParts(d)[0] == part;
    case SecondarySkills => assert SkillParts(d)[1] == part;
    case TechnicalSkills => assert SkillParts(d)[2] == part;
    case SoftSkills => assert SkillParts(d)[3] == part;
  }

  /** The preference lists are sent among the preference parts. */
  lemma PreferenceListPart(d: Draft, f: TagField)
    requires !(f.PrimarySkills? || f.SecondarySkills? || f.TechnicalSkills? || f.SoftSkills?)
    ensures JsonPart(TagName(f), JStrings(Tags(d, f))) in PreferenceParts(d)
  {
    var part := JsonPart(TagName(f), JStrings(Tags(d, f)));
    match f
    case DesiredJobTitles => assert PreferenceParts(d)[0] == part;
    case PreferredLocations => assert PreferenceParts(d)[1] == part;
    case WorkMode => assert PreferenceParts(d)[2] == part;
    case JobType => assert PreferenceParts(d)[3] == part;
    case CompanySize => assert PreferenceParts(d)[7] == part;
    case PreferredIndustries => assert PreferenceParts(d)[8] == part;
  }

  /**
   * Each list collection is sent as exactly one JSON part under its own
   * name, holding the list as it stands in the draft.
   */
  lemma SerializeListFields(d: Draft, f: TagField)
    ensures CountNamed(Serialize(d), TagName(f)) == 1
    ensures JsonPart(TagName(f), JStrings(Tags(d, f))) in Serialize(d)
  {
    CountInSerialize(d, TagName(f));
    if f.PrimarySkills? || f.SecondarySkills? || f.TechnicalSkills? || f.SoftSkills? {
      SkillListPart(d, f);
    } else {
      PreferenceListPart(d, f);
    }
    InSerialize(d, JsonPart(TagName(f), JStrings(Tags(d, f))));
  }

  /** The certifications are sent as exactly one JSON part. */
  lemma SerializeCertifications(d: Draft)
    ensures CountNamed(Serialize(d), "certifications") == 1
    ensures JsonPart("certifications", JCertifications(d.certifications)) in Serialize(d)
  {
    assert SkillNames[4] == "certifications";
    CountInSerialize(d, "certifications");
    assert SkillParts(d)[4] == JsonPart("certifications", JCertifications(d.certifications));
    InSerialize(d, SkillParts(d)[4]);
  }

  /** The languages are sent as exactly one JSON part. */
  lemma SerializeLanguages(d: Draft)
    ensures CountNamed(Serialize(d), "languages") == 1
    ensures JsonPart("languages", JLanguages(d.languages)) in Serialize(d)
  {
    assert SkillNames[5] == "languages";
    CountInSerialize(d, "languages");
    assert SkillParts(d)[5] == JsonPart("languages", JLanguages(d.languages));
    InSerialize(d, SkillParts(d)[5]);
  }

  /** The education entries are sent as exactly one JSON part. */
  lemma SerializeEducation(d: Draft)
    ensures CountNamed(Serialize(d), "education") == 1
    ensures JsonPart("education", JEducation(d.education)) in Serialize(d)
  {
    assert SkillNames[6] == "education";
    CountInSerialize(d, "education");
    assert SkillParts(d)[6] == JsonPart("education", JEducation(d.education));
    InSerialize(d, SkillParts(d)[6]);
  }

  /** The payload opens with the single `name` part, "first last". */
  lemma SerializeName(d: Draft)
    ensures Serialize(d)[0] == TextPart("name", d.firstName + " " + d.lastName)
    ensures CountNamed(Serialize(d), "name") == 1
  {
    assert PartNames[0] == BasicNames[0] == "name";
    CountInSerialize(d, "name");
    assert FieldParts(d)[0] == BasicParts(d)[0];
  }

  /** The password confirmation is never sent. */
  lemma SerializeOmitsConfirmation(d: Draft)
    ensures CountNamed(Serialize(d), "confirmPassword") == 0
  {
    assert "confirmPassword" !in BasicNames && "confirmPassword" !in ProfessionalNames;
    assert "confirmPassword" !in SkillNames && "confirmPassword" !in PreferenceNames;
    CountNotInSerialize(d, "confirmPassword");
  }

  /** No text or JSON part is a file. */
  lemma FieldPartsNoFiles(d: Draft)
    ensures CountFiles(FieldParts(d)) == 0
  {
    var b, p, s, r := BasicParts(d), ProfessionalParts(d), SkillParts(d), PreferenceParts(d);
    NoFiles(b);
    NoFiles(p);
    NoFiles(s);
    NoFiles(r);
    CountAppend(b, p, "");
    CountAppend(b + p, s, "");
    CountAppend(b + p + s, r, "");
  }

  /** A file part is sent exactly for each file that was chosen, and no other part is a file. */
  lemma SerializeFileCount(d: Draft)
    ensures CountFiles(Serialize(d)) == (if d.profilePicture.Some? then 1 else 0) + (if d.resume.Some? then 1 else 0)
  {
    FieldPartsNoFiles(d);
    CountAppend(FieldParts(d), FileParts(d), "");
    var pic := if d.profilePicture.Some? then [FilePart("profilePicture", d.profilePicture.value)] else [];
    var res := if d.resume.Some? then [FilePart("resume", d.resume.value)] else [];
    CountAppend(pic, res, "");
    assert FileParts(d) == pic + res;
  }

  /** The profile picture is sent, once, exactly when one was chosen. */
  lemma SerializeProfilePicture(d: Draft)
    ensures CountNamed(Serialize(d), "profilePicture") == (if d.profilePicture.Some? then 1 else 0)
    ensures d.profilePicture.Some? ==> FilePart("profilePicture", d.profilePicture.value) in Serialize(d)
  {
    FileNamesOutside();
    FieldPartNames(d);
    CountNamedAbsent(FieldParts(d), "profilePicture");
    CountAppend(FieldParts(d), FileParts(d), "profilePicture");
    var pic := if d.profilePicture.Some? then [FilePart("profilePicture", d.profilePicture.value)] else [];
    var res := if d.resume.Some? then [FilePart("resume", d.resume.value)] else [];
    CountAppend(pic, res, "profilePicture");
    assert FileParts(d) == pic + res;
  }

  /** The resume is sent, once, exactly when one was chosen. */
  lemma SerializeResume(d: Draft)
    ensures CountNamed(Serialize(d), "resume") == (if d.resume.Some? then 1 else 0)
    ensures d.resume.Some? ==> FilePart("resume", d.resume.value) in Serialize(d)
  {
    FileNamesOutside();
    FieldPartNames(d);
    CountNamedAbsent(FieldParts(d), "resume");
    CountAppend(FieldParts(d), FileParts(d), "resume");
    var pic := if d.profilePicture.Some? then [FilePart("profilePicture", d.profilePicture.value)] else [];
    var res := if d.resume.Some? then [FilePart("resume", d.resume.value)] else [];
    CountAppend(pic, res, "resume");
    assert FileParts(d) == pic + res;
  }

  /** A list with no file part counts no files. */
  lemma {:induction false} NoFiles(parts: seq<Part>)
    requires forall i :: 0 <= i < |parts| ==> !parts[i].FilePart?
    ensures CountFiles(parts) == 0
  {
    if parts != [] {
      NoFiles(parts[1..]);
    }
  }

  /** The staging inputs of the list editors (`temp*`). */
  datatype Staging = Staging(
    technicalSkill: string, softSkill: string,
    certification: Certification, language: LanguageEntry, education: Education,
    jobTitle: string, location: string)

  const InitialStaging := Staging("", "", EmptyCertification, EmptyLanguage, EmptyEducation, "", "")

  /** The four free-text list inputs, each committed into its own list. */
  datatype TagInput = TechnicalSkillInput | SoftSkillInput | JobTitleInput | LocationInput

  function InputField(i: TagInput): TagField {
    match i
    case TechnicalSkillInput => TechnicalSkills
    case SoftSkillInput => SoftSkills
    case JobTitleInput => DesiredJobTitles
    case LocationInput => PreferredLocations
  }

  function InputText(s: Staging, i: TagInput): string {
    match i
    case TechnicalSkillInput => s.technicalSkill
    case SoftSkillInput => s.softSkill
    case JobTitleInput => s.jobTitle
    case LocationInput => s.location
  }

  function WithInputText(s: Staging, i: TagInput, v: string): Staging {
    match i
    case TechnicalSkillInput => s.(technicalSkill := v)
    case SoftSkillInput => s.(softSkill := v)
    case JobTitleInput => s.(jobTitle := v)
    case LocationInput => s.(location := v)
  }

  /** `addCertification`'s guard: name and organization both filled in. */
  predicate CertificationReady(c: Certification) { c.name != "" && c.organization != "" }
  /** `addLanguage`'s guard: language and proficiency both filled in. */
  predicate LanguageReady(l: LanguageEntry) { l.language != "" && l.proficiency != "" }
  /** `addEducation`'s guard: degree and institution both filled in. */
  predicate EducationReady(e: Education) { e.degree != "" && e.institution != "" }

  class Wizard {
    const auth: AuthProvider.Session
    var currentStep: int
    var draft: Draft
    var error: string
    var loading: bool
    var agreedToTerms: bool
    var staging: Staging
    /** Every target passed to `navigate`, oldest first. */
    var navigations: seq<string>

    /** The step is one of the five, and no list field holds a value twice. */
    predicate Valid()
      reads this
    {
      && 1 <= currentStep <= TotalSteps
      && forall f :: NoDuplicates(Tags(draft, f))
    }

    constructor(session: AuthProvider.Session)
      ensures Valid()
      ensures auth == session && currentStep == 1 && draft == InitialDraft && error == ""
      ensures !loading && !agreedToTerms && staging == InitialStaging && navigations == []
    {
      auth := session;
      currentStep := 1;
      draft := InitialDraft;
      error := "";
      loading := false;
      agreedToTerms := false;
      staging := InitialStaging;
      navigations := [];
    }

    /** `handleChange` for a text input. */
    method HandleChange(f: TextField, value: string)
      requires Valid()
      modifies this
      ensures Valid()
      ensures draft == WithText(old(draft), f, value)
      ensures currentStep == old(currentStep) && error == old(error) && loading == old(loading)
      ensures agreedToTerms == old(agreedToTerms) && staging == old(staging) && navigations == old(navigations)
    {
      TextAfterWithText(draft, f, value);
      draft := WithText(draft, f, value);
    }

    /** `handleChange` for a file input, and the button that removes the chosen resume. */
    method ChooseFile(f: FileField, file: Option<FileRef>)
      requires Valid()
      modifies this
      ensures Valid()
      ensures f == ProfilePicture ==> draft == old(draft).(profilePicture := file)
      ensures f == Resume ==> draft == old(draft).(resume := file)
      ensures currentStep == old(currentStep) && error == old(error) && loading == old(loading)
      ensures agreedToTerms == old(agreedToTerms) && staging == old(staging) && navigations == old(navigations)
    {
      if f == ProfilePicture {
        draft := draft.(profilePicture := file);
      } else {
        draft := draft.(resume := file);
      }
      assert forall g :: Tags(draft, g) == Tags(old(draft), g);
    }

    /** The terms checkbox. */
    method SetAgreedToTerms(checked: bool)
      modifies this
      ensures agreedToTerms == checked
      ensures currentStep == old(currentStep) && draft == old(draft) && error == old(error)
      ensures loading == old(loading) && staging == old(staging) && navigations == old(navigations)
    {
      agreedToTerms := checked;
    }

    /** The change handlers of the staging inputs. */
    method SetStaging(s: Staging)
      modifies this
      ensures staging == s
      ensures currentStep == old(currentStep) && draft == old(draft) && error == old(error)
      ensures loading == old(loading) && agreedToTerms == old(agreedToTerms) && navigations == old(navigations)
    {
      staging := s;
    }

    /**
     * `handleNext`: the current step is validated (the error is cleared
     * first); when it passes the wizard moves on, except from the last
     * step; when it fails the step stays and the error holds the first
     * failing check's message.
     */
    method Next()
      requires Valid()
      modifies this
      ensures Valid()
      ensures var verdict := StepError(old(currentStep), old(draft), old(agreedToTerms));
        && (verdict.None? ==> error == "" && currentStep == (if old(currentStep) < TotalSteps then old(currentStep) + 1 else old(currentStep)))
        && (verdict.Some? ==> error == verdict.value && currentStep == old(currentStep))
      ensures draft == old(draft) && loading == old(loading) && agreedToTerms == old(agreedToTerms)
      ensures staging == old(staging) && navigations == old(navigations)
    {
      error := "";
      var verdict := StepError(currentStep, draft, agreedToTerms);
      if verdict.Some? {
        error := verdict.value;
      } else if currentStep < TotalSteps {
        currentStep := currentStep + 1;
      }
    }

    /** `handlePrevious`: back one step with the error cleared; nothing happens on the first step. */
    method Previous()
      requires Valid()
      modifies this
      ensures Valid()
      ensures old(currentStep) > 1 ==> currentStep == old(currentStep) - 1 && error == ""
      ensures old(currentStep) == 1 ==> currentStep == 1 && error == old(error)
      ensures draft == old(draft) && loading == old(loading) && agreedToTerms == old(agreedToTerms)
      ensures staging == old(staging) && navigations == old(navigations)
    {
      if currentStep > 1 {
        currentStep := currentStep - 1;
        error := "";
      }
    }

    /** `addToArray`: appends a non-empty value not yet in the list, and reports whether it did. */
    method AddToArray(f: TagField, value: string) returns (added: bool)
      requires Valid()
      modifies this
      ensures Valid()
      ensures added <==> CanAdd(Tags(old(draft), f), value)
      ensures draft == WithTags(old(draft), f, Add(Tags(old(draft), f), value).0)
      ensures currentStep == old(currentStep) && error == old(error) && loading == old(loading)
      ensures agreedToTerms == old(agreedToTerms) && staging == old(staging) && navigations == old(navigations)
    {
      var (xs, ok) := Add(Tags(draft, f), value);
      AddKeepsNoDuplicates(Tags(draft, f), value);
      TagsAfterWithTags(draft, f, xs);
      draft := WithTags(draft, f, xs);
      added := ok;
    }

    /**
     * Enter or the Add button on a free-text list input: the typed value
     * is added, and the input is cleared only when the add went ahead.
     */
    method CommitInput(i: TagInput)
      requires Valid()
      modifies this
      ensures Valid()
      ensures var typed := InputText(old(staging), i);
        && draft == WithTags(old(draft), InputField(i), Add(Tags(old(draft), InputField(i)), typed).0)
        && staging == (if CanAdd(Tags(old(draft), InputField(i)), typed) then WithInputText(old(staging), i, "") else old(staging))
      ensures currentStep == old(currentStep) && error == old(error) && loading == old(loading)
      ensures agreedToTerms == old(agreedToTerms) && navigations == old(navigations)
    {
      var added := AddToArray(InputField(i), InputText(staging, i));
      if added {
        staging := WithInputText(staging, i, "");
      }
    }

    /** `removeFromArray`: drops the element at `index`; an index out of range changes nothing. */
    method RemoveFromArray(field: ListField, index: int)
      requires Valid()
      modifies this
      ensures Valid()
      ensures field.TagList? ==> draft == WithTags(old(draft), field.field, RemoveAt(Tags(old(draft), field.field), index))
      ensures field == CertificationList ==> draft == old(draft).(certifications := RemoveAt(old(draft).certifications, index))
      ensures field == LanguageList ==> draft == old(draft).(languages := RemoveAt(old(draft).languages, index))
      ensures field == EducationList ==> draft == old(draft).(education := RemoveAt(old(draft).education, index))
      ensures currentStep == old(currentStep) && error == old(error) && loading == old(loading)
      ensures agreedToTerms == old(agreedToTerms) && staging == old(staging) && navigations == old(navigations)
    {
      match field
      case TagList(f) =>
        var xs := RemoveAt(Tags(draft, f), index);
        RemoveAtKeepsNoDuplicates(Tags(draft, f), index);
        TagsAfterWithTags(draft, f, xs);
        draft := WithTags(draft, f, xs);
      case CertificationList =>
        draft := draft.(certifications := RemoveAt(draft.certifications, index));
        assert forall g :: Tags(draft, g) == Tags(old(draft), g);
      case LanguageList =>
        draft := draft.(languages := RemoveAt(draft.languages, index));
        assert forall g :: Tags(draft, g) == Tags(old(draft), g);
      case EducationList =>
        draft := draft.(education := RemoveAt(draft.education, index));
        assert forall g :: Tags(draft, g) == Tags(old(draft), g);
    }

    /** `handleArrayToggle`: removes the value when present, appends it otherwise. */
    method ToggleValue(f: TagField, value: string)
      requires Valid()
      modifies this
      ensures Valid()
      ensures draft == WithTags(old(draft), f, Toggle(Tags(old(draft), f), value))
      ensures value in Tags(draft, f) <==> value !in Tags(old(draft), f)
      ensures currentStep == old(currentStep) && error == old(error) && loading == old(loading)
      ensures agreedToTerms == old(agreedToTerms) && staging == old(staging) && navigations == old(navigations)
    {
      var xs := Toggle(Tags(draft, f), value);
      ToggleKeepsNoDuplicates(Tags(draft, f), value);
      TagsAfterWithTags(draft, f, xs);
      draft := WithTags(draft, f, xs);
    }

    /**
     * `addCertification`: with name and organization filled in, a copy of
     * the staged record is appended and the staging record reset; otherwise
     * nothing changes.
     */
    method AddCertification()
      requires Valid()
      modifies this
      ensures Valid()
      ensures CertificationReady(old(staging).certification) ==>
        && draft == old(draft).(certifications := old(draft).certifications + [old(staging).certification])
        && staging == old(staging).(certification := EmptyCertification)
      ensures !CertificationReady(old(staging).certification) ==> draft == old(draft) && staging == old(staging)
      ensures currentStep == old(currentStep) && error == old(error) && loading == old(loading)
      ensures agreedToTerms == old(agreedToTerms) && navigations == old(navigations)
    {
      if CertificationReady(staging.certification) {
        draft := draft.(certifications := draft.certifications + [staging.certification]);
        staging := staging.(certification := EmptyCertification);
        assert forall g :: Tags(draft, g) == Tags(old(draft), g);
      }
    }

    /** `addLanguage`: the same, guarded by language and proficiency. */
    method AddLanguage()
      requires Valid()
      modifies this
      ensures Valid()
      ensures LanguageReady(old(staging).language) ==>
        && draft == old(draft).(languages := old(draft).languages + [old(staging).language])
        && staging == old(staging).(language := EmptyLanguage)
      ensures !LanguageReady(old(staging).language) ==> draft == old(draft) && staging == old(staging)
      ensures currentStep == old(currentStep) && error == old(error) && loading == old(loading)
      ensures agreedToTerms == old(agreedToTerms) && navigations == old(navigations)
    {
      if LanguageReady(staging.language) {
        draft := draft.(languages := draft.languages + [staging.language]);
        staging := staging.(language := EmptyLanguage);
        assert forall g :: Tags(draft, g) == Tags(old(draft), g);
      }
    }

    /** `addEducation`: the same, guarded by degree and institution. */
    method AddEducation()
      requires Valid()
      modifies this
      ensures Valid()
      ensures EducationReady(old(staging).education) ==>
        && draft == old(draft).(education := old(draft).education + [old(staging).education])
        && staging == old(staging).(education := EmptyEducation)
      ensures !EducationReady(old(staging).education) ==> draft == old(draft) && staging == old(staging)
      ensures currentStep == old(currentStep) && error == old(error) && loading == old(loading)
      ensures agreedToTerms == old(agreedToTerms) && navigations == old(navigations)
    {
      if EducationReady(staging.education) {
        draft := draft.(education := draft.education + [staging.education]);
        staging := staging.(education := EmptyEducation);
        assert forall g :: Tags(draft, g) == Tags(old(draft), g);
      }
    }

    /**
     * `handleSubmit`, with `response` the outcome of registering the
     * serialised draft: success signs the session in and navigates to the
     * dashboard; failure shows the server's message, else the exception's,
     * else "Failed to create account.". `loading` ends false either way.
     */
    method Submit(response: Outcome<map<string, string>>)
      requires Valid()
      modifies this, auth, auth.window
      ensures Valid()
      ensures !loading
      ensures response.Success? ==>
        && error == "" && navigations == old(navigations) + [DashboardPath]
        && auth.isAuthenticated && auth.user == Some(AuthProvider.SplitToken(response.data).1)
      ensures response.Failure? ==>
        && error == ErrorText(response.error, SubmitFallback) && navigations == old(navigations)
        && auth.isAuthenticated == old(auth.isAuthenticated) && auth.user == old(auth.user)
      ensures currentStep == old(currentStep) && draft == old(draft)
      ensures agreedToTerms == old(agreedToTerms) && staging == old(staging)
      ensures auth.registrations ==
        old(auth.registrations) + [AuthProvider.RegisterRequest(AuthProvider.FormDataInput(Serialize(old(draft))))]
      ensures auth.loading == old(auth.loading)
      ensures auth.window.pathname == old(auth.window.pathname)
      ensures auth.window.hrefAssignments ==
        old(auth.window.hrefAssignments) + RedirectAfter(response, old(auth.window.pathname))
      ensures response.Success? ==>
        auth.window.storedToken == Some(AuthProvider.StoredForm(AuthProvider.SplitToken(response.data).0))
      ensures response.Failure? ==>
        auth.window.storedToken == TokenAfter(old(auth.window.storedToken), response)
    {
      error := "";
      loading := true;
      var payload := Serialize(draft);
      var result := auth.Register(AuthProvider.FormDataInput(payload), response);
      if result.Signed? {
        navigations := navigations + [DashboardPath];
      } else {
        error := ErrorText(response.error, SubmitFallback);
      }
      loading := false;
    }
  }
}
