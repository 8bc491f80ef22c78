/**
 * The account settings page: the personal details derived from the
 * signed-in user, the skills editor, the save handlers and their message
 * protocol, and the password change.
 */
module Settings {
  import opened Wrappers
  import opened Text
  import opened Http
  import opened Seqs
  import opened TagList
  import opened Profile
  import opened Api
  import AuthProvider

  /**
   * `name.split(" ")[0] || ""` and `name.split(" ")[1] || ""`: the first
   * two space-separated words of the user's name, "" for a missing one.
   * The first word is the whole name or is followed by a space, and the
   * second word starts right after that space.
   */
  function NameParts(name: Option<string>): (r: (string, string))
    ensures name.None? ==> r == ("", "")
    ensures name.Some? ==> ' ' !in r.0 && ' ' !in r.1
    ensures name.Some? ==> StartsWith(name.value, r.0)
    ensures name.Some? ==> r.0 == name.value || (|r.0| < |name.value| && name.value[|r.0|] == ' ')
    ensures name.Some? && r.0 == name.value ==> r.1 == ""
    ensures name.Some? && r.0 != name.value ==> StartsWith(name.value[|r.0| + 1..], r.1)
  {
    if name.None? then ("", "")
    else
      var words := Split(name.value, ' ');
      JoinHead(words, ' ');
      if |words| > 1 then
        JoinHead(words[1..], ' ');
        (words[0], words[1])
      else
        (words[0], "")
  }

  /**
   * A join starts with its first piece; with more pieces, the separator
   * follows it and the join of the rest comes after.
   */
  lemma JoinHead(parts: seq<string>, sep: char)
    requires |parts| >= 1
    ensures StartsWith(Join(parts, sep), parts[0])
    ensures |parts| == 1 ==> Join(parts, sep) == parts[0]
    ensures |parts| > 1 ==>
      && |parts[0]| < |Join(parts, sep)| && Join(parts, sep)[|parts[0]|] == sep
      && Join(parts, sep)[|parts[0]| + 1..] == Join(parts[1..], sep)
  {
    if |parts| > 1 {
      assert Join(parts, sep) == parts[0] + ([sep] + Join(parts[1..], sep));
    }
  }

  /** A one-word name is the first name, and the last name is empty. */
  lemma OneWord(w: string)
    requires ' ' !in w
    ensures NameParts(Some(w)) == (w, "")
  {
    SplitJoin([w], ' ');
  }

  /**
   * The name the registration form sends, "first last", splits back into
   * the two names when neither contains a space.
   */
  lemma NamePartsRoundTrip(first: string, last: string)
    requires ' ' !in first && ' ' !in last
    ensures NameParts(Some(first + " " + last)) == (first, last)
  {
    assert Join([first, last], ' ') == first + " " + last by {
      assert Join([first, last][1..], ' ') == last;
    }
    SplitJoin([first, last], ' ');
  }

  /** A name of three or more words keeps only the first two. */
  lemma NamePartsDropsLaterWords(first: string, last: string, rest: string)
    requires ' ' !in first && ' ' !in last && ' ' !in rest
    ensures NameParts(Some(first + " " + last + " " + rest)) == (first, last)
  {
    var parts := [first, last, rest];
    assert Join(parts[2..], ' ') == rest;
    assert Join(parts[1..], ' ') == last + " " + rest;
    assert Join(parts, ' ') == first + " " + last + " " + rest;
    SplitJoin(parts, ' ');
  }

  /** The personal details form. */
  datatype PersonalInfo = PersonalInfo(
    firstName: string, lastName: string, email: string, phone: string,
    location: string, linkedIn: string, portfolio: string)

  /** The personal details as the page derives them from the user record, "" for anything missing. */
  function PersonalFrom(user: Option<User>): (r: PersonalInfo)
    ensures (r.firstName, r.lastName) == NameParts(Attr(user, "name"))
    ensures r.email == OrEmpty(Attr(user, "email")) && r.phone == OrEmpty(Attr(user, "phone"))
    ensures r.location == OrEmpty(Attr(user, "location"))
    ensures r.linkedIn == OrEmpty(Attr(user, "linkedin_profile"))
    ensures r.portfolio == OrEmpty(Attr(user, "portfolio_website"))
  {
    var (first, last) := NameParts(Attr(user, "name"));
    PersonalInfo(first, last,
      OrEmpty(Attr(user, "email")), OrEmpty(Attr(user, "phone")), OrEmpty(Attr(user, "location")),
      OrEmpty(Attr(user, "linkedin_profile")), OrEmpty(Attr(user, "portfolio_website")))
  }

  /** The string lists of the skills editor. */
  datatype SkillField = PrimarySkills | SecondarySkills | TechnicalSkills | SoftSkills

  datatype Skills = Skills(
    primarySkills: seq<string>, secondarySkills: seq<string>,
    technicalSkills: seq<string>, softSkills: seq<string>,
    certifications: seq<Certification>, languages: seq<LanguageEntry>,
    education: seq<Education>)

  function SkillList(s: Skills, f: SkillField): seq<string> {
    match f
    case PrimarySkills => s.primarySkills
    case SecondarySkills => s.secondarySkills
    case TechnicalSkills => s.technicalSkills
    case SoftSkills => s.softSkills
  }

  /** `{ ...skillsInfo, [field]: xs }` */
  function WithSkillList(s: Skills, f: SkillField, xs: seq<string>): (r: Skills)
    ensures SkillList(r, f) == xs
    ensures forall g :: g != f ==> SkillList(r, g) == SkillList(s, g)
    ensures r.certifications == s.certifications && r.languages == s.languages && r.education == s.education
  {
    match f
    case PrimarySkills => s.(primarySkills := xs)
    case SecondarySkills => s.(secondarySkills := xs)
    case TechnicalSkills => s.(technicalSkills := xs)
    case SoftSkills => s.(softSkills := xs)
  }

  /** `addCertification`'s guard: only the trimmed name must be non-empty. */
  predicate CertificationReady(c: Certification) { Trim(c.name) != "" }
  /** `addLanguage`'s guard: only the trimmed language must be non-empty. */
  predicate LanguageReady(l: LanguageEntry) { Trim(l.language) != "" }
  /** `addEducation`'s guard: only the trimmed degree must be non-empty. */
  predicate EducationReady(e: Education) { Trim(e.degree) != "" }

  /** The guard holds exactly when the name has a non-blank character; organization and date play no part. */
  lemma CertificationReadyMeans(c: Certification)
    ensures CertificationReady(c) <==> exists k :: 0 <= k < |c.name| && !IsJsWhitespace(c.name[k])
  {
    if !CertificationReady(c) {
      assert IsBlank(c.name);
    }
  }

  /** The status line above the forms: `{ type, text }`. */
  datatype Message = Message(kind: string, text: string)
  const NoMessage := Message("", "")

  /** The five forms saved by a plain request. */
  datatype Section = Personal | Professional | SkillsSection | Preferences | Notifications

  /** The resource each form is written to. */
  function SectionPath(s: Section): string {
    match s
    case Personal => "/users/profile/personal"
    case Professional => "/users/profile/professional"
    case SkillsSection => "/users/profile/skills"
    case Preferences => "/users/profile/preferences"
    case Notifications => "/users/notifications"
  }

  function SuccessText(s: Section): (t: string)
    ensures t != ""
  {
    match s
    case Personal => "Personal information updated successfully!"
    case Professional => "Professional information updated successfully!"
    case SkillsSection => "Skills and certifications updated successfully!"
    case Preferences => "Job preferences updated successfully!"
    case Notifications => "Notification preferences updated!"
  }

  function FallbackText(s: Section): (t: string)
    ensures t != ""
  {
    match s
    case Personal => "Failed to update information"
    case Professional => "Failed to update information"
    case SkillsSection => "Failed to update information"
    case Preferences => "Failed to update preferences"
    case Notifications => "Failed to update preferences"
  }

  const PasswordPath := "/users/password"
  const PasswordMismatchText := "New passwords do not match"
  const PasswordSuccessText := "Password updated successfully!"
  const PasswordFallbackText := "Failed to update password"

  /** The message a finished request leaves: the success text, or the server's message or the fallback. */
  function OutcomeMessage(outcome: Outcome<()>, success: string, fallback: string): (m: Message)
    requires success != "" && fallback != ""
    ensures m.text != ""
    ensures outcome.Success? ==> m == Message("success", success)
    ensures outcome.Failure? ==> m == Message("error", ServerMessageOr(outcome.error, fallback))
  {
    match outcome
    case Success(_) => Message("success", success)
    case Failure(e) => Message("error", ServerMessageOr(e, fallback))
  }

  /** The observable steps of a handler, in order. */
  datatype Event = LoadingSet(on: bool) | MessageSet(message: Message) | RequestSent(path: string)

  /** The message a save of `section` leaves. */
  function SaveMessage(section: Section, outcome: Outcome<()>): (m: Message)
    ensures m.text != ""
    ensures outcome.Success? ==> m == Message("success", SuccessText(section))
    ensures outcome.Failure? ==> m == Message("error", ServerMessageOr(outcome.error, FallbackText(section)))
  {
    OutcomeMessage(outcome, SuccessText(section), FallbackText(section))
  }

  /** The password form. */
  datatype PasswordSettings = PasswordSettings(currentPassword: string, newPassword: string, confirmPassword: string)
  const EmptyPasswords := PasswordSettings("", "", "")

  /** The staging inputs of the skills editor. */
  datatype SkillStaging = SkillStaging(
    technicalSkill: string, softSkill: string,
    certification: Certification, language: LanguageEntry, education: Education)

  const InitialStaging := SkillStaging("", "", EmptyCertification, EmptyLanguage, EmptyEducation)

  /** The two free-text skill inputs. */
  datatype SkillInput = TechnicalSkillInput | SoftSkillInput

  function InputField(i: SkillInput): SkillField {
    match i
    case TechnicalSkillInput => TechnicalSkills
    case SoftSkillInput => SoftSkills
  }

  function InputText(s: SkillStaging, i: SkillInput): string {
    match i
    case TechnicalSkillInput => s.technicalSkill
    case SoftSkillInput => s.softSkill
  }

  function WithInputText(s: SkillStaging, i: SkillInput, v: string): SkillStaging {
    match i
    case TechnicalSkillInput => s.(technicalSkill := v)
    case SoftSkillInput => s.(softSkill := v)
  }

  class SettingsPage {
    const auth: AuthProvider.Session
    var personal: PersonalInfo
    var skills: Skills
    var passwords: PasswordSettings
    var message: Message
    var loading: bool
    var staging: SkillStaging
    /** What the handlers have done so far, oldest first. */
    ghost var log: seq<Event>

    /** Mounting: the personal details come from the session's user; `skills` is what the user record holds. */
    constructor(session: AuthProvider.Session, initialSkills: Skills)
      ensures auth == session && personal == PersonalFrom(session.user)
      ensures skills == initialSkills && passwords == EmptyPasswords && message == NoMessage
      ensures !loading && staging == InitialStaging && log == []
    {
      auth := session;
      personal := PersonalFrom(session.user);
      skills := initialSkills;
      passwords := EmptyPasswords;
      message := NoMessage;
      loading := false;
      staging := InitialStaging;
      log := [];
    }

    /**
     * The effect run when the session's user changes: a present user refills
     * the personal details and replaces the skills editor's lists with
     * `userSkills`, the lists that user record holds.
     */
    method SyncFromUser(userSkills: Skills)
      modifies this
      ensures auth.user.Some? ==> personal == PersonalFrom(auth.user) && skills == userSkills
      ensures auth.user.None? ==> personal == old(personal) && skills == old(skills)
      ensures passwords == old(passwords) && message == old(message)
      ensures loading == old(loading) && staging == old(staging) && log == old(log)
    {
      if auth.user.Some? {
        personal := PersonalFrom(auth.user);
        skills := userSkills;
      }
    }

    /**
     * The opening of every request handler: `setLoading(true)`, then
     * `setMessage({ type: "", text: "" })`, then the request goes out.
     */
    method BeginRequest(path: string)
      modifies this
      ensures loading && message == NoMessage
      ensures log == old(log) + [LoadingSet(true), MessageSet(NoMessage), RequestSent(path)]
      ensures unchanged(this`personal, this`skills, this`passwords, this`staging)
    {
      loading := true;
      log := log + [LoadingSet(true)];
      message := NoMessage;
      log := log + [MessageSet(NoMessage)];
      log := log + [RequestSent(path)];
    }

    /** The close of a save handler: the outcome's message, then the `finally`'s `setLoading(false)`. */
    method FinishRequest(final: Message)
      modifies this
      ensures message == final && !loading
      ensures log == old(log) + [MessageSet(final), LoadingSet(false)]
      ensures unchanged(this`personal, this`skills, this`passwords, this`staging)
    {
      message := final;
      log := log + [MessageSet(final)];
      loading := false;
      log := log + [LoadingSet(false)];
    }

    /**
     * A save handler, with `outcome` the outcome of its request: loading
     * on, message cleared, request sent, then the success text or the
     * server's message or the fallback, and loading off. The message it
     * leaves is never blank. The request passes the response interceptor.
     */
    method Save(section: Section, outcome: Outcome<()>)
      modifies this, auth.window
      ensures auth.window.storedToken == TokenAfter(old(auth.window.storedToken), outcome)
      ensures auth.window.hrefAssignments == old(auth.window.hrefAssignments) + RedirectAfter(outcome, old(auth.window.pathname))
      ensures auth.window.pathname == old(auth.window.pathname)
      ensures message == SaveMessage(section, outcome)
      ensures message.text != "" && !loading
      ensures log == old(log) + [LoadingSet(true), MessageSet(NoMessage), RequestSent(SectionPath(section)),
                                 MessageSet(message), LoadingSet(false)]
      ensures unchanged(this`personal, this`skills, this`passwords, this`staging)
    {
      BeginRequest(SectionPath(section));
      Settle(auth.window, outcome);
      FinishRequest(SaveMessage(section, outcome));
    }

    /**
     * `handlePasswordUpdate`, with `outcome` the outcome of the request.
     * When the new password and its confirmation differ, the error is shown
     * and nothing else happens: no request, no change to `loading`.
     * Otherwise it opens like a save, its request passing the response
     * interceptor; the outcome's message is set, success then empties all
     * three password fields, and loading ends.
     */
    method UpdatePassword(outcome: Outcome<()>)
      modifies this, auth.window
      ensures old(passwords).newPassword != old(passwords).confirmPassword ==>
        && unchanged(auth.window)
        && message == Message("error", PasswordMismatchText)
        && log == old(log) + [MessageSet(message)]
        && loading == old(loading) && passwords == old(passwords)
      ensures old(passwords).newPassword == old(passwords).confirmPassword ==>
        && auth.window.storedToken == TokenAfter(old(auth.window.storedToken), outcome)
        && auth.window.hrefAssignments == old(auth.window.hrefAssignments) + RedirectAfter(outcome, old(auth.window.pathname))
        && auth.window.pathname == old(auth.window.pathname)
        && message == OutcomeMessage(outcome, PasswordSuccessText, PasswordFallbackText)
        && log == old(log) + [LoadingSet(true), MessageSet(NoMessage), RequestSent(PasswordPath),
                              MessageSet(message), LoadingSet(false)]
        && !loading
        && passwords == (if outcome.Success? then EmptyPasswords else old(passwords))
      ensures forall k :: old(|log|) <= k < |log| && log[k].RequestSent? ==>
        old(passwords).newPassword == old(passwords).confirmPassword
      ensures personal == old(personal) && skills == old(skills) && staging == old(staging)
    {
      if passwords.newPassword != passwords.confirmPassword {
        message := Message("error", PasswordMismatchText);
        log := log + [MessageSet(message)];
        return;
      }
      BeginRequest(PasswordPath);
      Settle(auth.window, outcome);
      message := OutcomeMessage(outcome, PasswordSuccessText, PasswordFallbackText);
      log := log + [MessageSet(message)];
      if outcome.Success? {
        passwords := EmptyPasswords;
      }
      loading := false;
      log := log + [LoadingSet(false)];
    }

    /** The change handlers of the password inputs. */
    method SetPasswords(p: PasswordSettings)
      modifies this
      ensures passwords == p
      ensures personal == old(personal) && skills == old(skills) && message == old(message)
      ensures loading == old(loading) && staging == old(staging) && log == old(log)
    {
      passwords := p;
    }

    /** The change handlers of the skills editor's staging inputs. */
    method SetStaging(s: SkillStaging)
      modifies this
      ensures staging == s
      ensures personal == old(personal) && skills == old(skills) && message == old(message)
      ensures loading == old(loading) && passwords == old(passwords) && log == old(log)
    {
      staging := s;
    }

    /** `addToArray`: appends a non-empty value not yet in the list, and reports whether it did. */
    method AddToArray(f: SkillField, value: string) returns (added: bool)
      modifies this
      ensures added <==> CanAdd(SkillList(old(skills), f), value)
      ensures skills == WithSkillList(old(skills), f, Add(SkillList(old(skills), f), value).0)
      ensures personal == old(personal) && passwords == old(passwords) && message == old(message)
      ensures loading == old(loading) && staging == old(staging) && log == old(log)
    {
      var (xs, ok) := Add(SkillList(skills, f), value);
      skills := WithSkillList(skills, f, xs);
      added := ok;
    }

    /** Enter or the Add button on a skill input: the input is cleared only when the add went ahead. */
    method CommitInput(i: SkillInput)
      modifies this
      ensures var typed := InputText(old(staging), i);
        && skills == WithSkillList(old(skills), InputField(i), Add(SkillList(old(skills), InputField(i)), typed).0)
        && staging == (if CanAdd(SkillList(old(skills), InputField(i)), typed) then WithInputText(old(staging), i, "") else old(staging))
      ensures personal == old(personal) && passwords == old(passwords) && message == old(message)
      ensures loading == old(loading) && log == old(log)
    {
      var added := AddToArray(InputField(i), InputText(staging, i));
      if added {
        staging := WithInputText(staging, i, "");
      }
    }

    /** `removeFromArray`: drops the element at `index`; an index out of range changes nothing. */
    method RemoveFromArray(f: SkillField, index: int)
      modifies this
      ensures skills == WithSkillList(old(skills), f, RemoveAt(SkillList(old(skills), f), index))
      ensures personal == old(personal) && passwords == old(passwords) && message == old(message)
      ensures loading == old(loading) && staging == old(staging) && log == old(log)
    {
      skills := WithSkillList(skills, f, RemoveAt(SkillList(skills, f), index));
    }

    /**
     * `addCertification`: a certification whose trimmed name is non-empty
     * is appended as entered and the staging record reset; otherwise
     * nothing changes.
     */
    method AddCertification()
      modifies this
      ensures CertificationReady(old(staging).certification) ==>
        && skills == old(skills).(certifications := old(skills).certifications + [old(staging).certification])
        && staging == old(staging).(certification := EmptyCertification)
      ensures !CertificationReady(old(staging).certification) ==> skills == old(skills) && staging == old(staging)
      ensures personal == old(personal) && passwords == old(passwords) && message == old(message)
      ensures loading == old(loading) && log == old(log)
    {
      if !CertificationReady(staging.certification) {
        return;
      }
      skills := skills.(certifications := skills.certifications + [staging.certification]);
      staging := staging.(certification := EmptyCertification);
    }

    /** `removeCertification` */
    method RemoveCertification(index: int)
      modifies this
      ensures skills == old(skills).(certifications := RemoveAt(old(skills).certifications, index))
      ensures personal == old(personal) && passwords == old(passwords) && message == old(message)
      ensures loading == old(loading) && staging == old(staging) && log == old(log)
    {
      skills := skills.(certifications := RemoveAt(skills.certifications, index));
    }

    /** `addLanguage`: guarded by the trimmed language alone. */
    method AddLanguage()
      modifies this
      ensures LanguageReady(old(staging).language) ==>
        && skills == old(skills).(languages := old(skills).languages + [old(staging).language])
        && staging == old(staging).(language := EmptyLanguage)
      ensures !LanguageReady(old(staging).language) ==> skills == old(skills) && staging == old(staging)
      ensures personal == old(personal) && passwords == old(passwords) && message == old(message)
      ensures loading == old(loading) && log == old(log)
    {
      if !LanguageReady(staging.language) {
        return;
      }
      skills := skills.(languages := skills.languages + [staging.language]);
      staging := staging.(language := EmptyLanguage);
    }

    /** `removeLanguage` */
    method RemoveLanguage(index: int)
      modifies this
      ensures skills == old(skills).(languages := RemoveAt(old(skills).languages, index))
      ensures personal == old(personal) && passwords == old(passwords) && message == old(message)
      ensures loading == old(loading) && staging == old(staging) && log == old(log)
    {
      skills := skills.(languages := RemoveAt(skills.languages, index));
    }

    /** `addEducation`: guarded by the trimmed degree alone. */
    method AddEducation()
      modifies this
      ensures EducationReady(old(staging).education) ==>
        && skills == old(skills).(education := old(skills).education + [old(staging).education])
        && staging == old(staging).(education := EmptyEducation)
      ensures !EducationReady(old(staging).education) ==> skills == old(skills) && staging == old(staging)
      ensures personal == old(personal) && passwords == old(passwords) && message == old(message)
      ensures loading == old(loading) && log == old(log)
    {
      if !EducationReady(staging.education) {
        return;
      }
      skills := skills.(education := skills.education + [staging.education]);
      staging := staging.(education := EmptyEducation);
    }

    /** `removeEducation` */
    method RemoveEducation(index: int)
      modifies this
      ensures skills == old(skills).(education := RemoveAt(old(skills).education, index))
      ensures personal == old(personal) && passwords == old(passwords) && message == old(message)
      ensures loading == old(loading) && staging == old(staging) && log == old(log)
    {
      skills := skills.(education := RemoveAt(skills.education, index));
    }
  }
}
