/** The structured records a user's profile holds in its lists, and user attributes. */
module Profile {
  import opened Wrappers

  datatype Certification = Certification(name: string, organization: string, date: string)
  datatype LanguageEntry = LanguageEntry(language: string, proficiency: string)
  datatype Education = Education(degree: string, institution: string, year: string)

  const EmptyCertification := Certification("", "", "")
  const EmptyLanguage := LanguageEntry("", "")
  const EmptyEducation := Education("", "", "")

  /** A user record as the server returns it: attribute name to text value. */
  type User = map<string, string>

  /** `user?.[key]`: the attribute, when there is a user and it has the attribute. */
  function Attr(user: Option<User>, key: string): (r: Option<string>)
    ensures r.Some? <==> user.Some? && key in user.value
    ensures r.Some? ==> r.value == user.value[key]
  {
    if user.Some? && key in user.value then Some(user.value[key]) else None
  }
}
