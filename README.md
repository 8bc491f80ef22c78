# ResuMatch client state, modelled in Dafny

ResuMatch is a job-search web client written in React. This project models its client-side state logic and proves properties of it:

- the five-step registration wizard: its validation gate, its tag and record editors, and the multipart payload it submits;
- the settings page: its skills editor, its save handlers and their message protocol, the password change and the name split;
- the session and job contexts: token, user, flags, saved jobs and applications;
- the HTTP client's two interceptors: the bearer header, forgetting the token on a 401, and the login redirect decision;
- the applications dashboard: status badges, tab counts and fetch parameters;
- the reusable dropdown and the location picker built on it;
- the site header: its links, the active link and the search target;
- the job search, job details and saved-jobs pages.

Each React handler is treated as one atomic step. A component whose handlers update state becomes a Dafny `class`; its fields are the component's state and its methods are the handlers, with `modifies` clauses and full post-states. A handler that sends a request through the shared HTTP client also states the interceptor's effect on the browser: after a 401 the token is gone, and "/login" is assigned when the redirect decision holds. Derivations that only compute a value become functions, and lemmas about them state what the code promises.

Some things are not code the client can see: every HTTP request, the `confirm` dialog, the debounced query and the country and city datasets. Each becomes an input parameter. An HTTP request is an `Http.Outcome`: success with the response data, or failure with an `HttpError` (status, server message, exception message, URL). Side effects the client cannot read back are recorded as logs the methods append to:

- `navigate` targets;
- `window.location.href` assignments;
- requests sent;
- tabs opened.

`localStorage` is reduced to its `token` entry (`Browser.Window`).

Modules follow the source files:

- `register.dfy`, `settings.dfy`, `auth_provider.dfy`, `job_provider.dfy`, `api.dfy`, `applications.dfy`, `custom_dropdown.dfy`, `location_combobox.dfy`, `navbar.dfy`, `job_search.dfy`, `job_details.dfy` and `saved_jobs.dfy` each model one source file;
- `tag_list.dfy` holds the tag editor that the wizard and the settings page share;
- `jobs.dfy` holds the job and application records;
- `text.dfy`, `seqs.dfy`, `http.dfy`, `profile.dfy`, `browser.dfy`, `form_data.dfy` and `wrappers.dfy` are shared helpers: JavaScript `trim`/`toLowerCase`/`includes`/`split`, filter and slice, request outcomes, user attributes, browser state, multipart parts and `Option`.

## Model

| member | source | states |
|---|---|---|
| TagList.Add | src/pages/auth/Register.jsx:125-134 | reports true exactly when the value is non-empty and absent; then the list is the old one plus the value at the end, otherwise unchanged |
| TagList.AddKeepsNoDuplicates | src/pages/auth/Register.jsx:125-134 | adding never creates a duplicate in a duplicate-free list |
| TagList.AddTwice | src/pages/auth/Register.jsx:125-134 | adding the same value a second time changes nothing and reports false |
| TagList.RemoveAt | src/pages/auth/Register.jsx:136-142 | the list loses exactly one element when the index is in range, none otherwise |
| TagList.RemoveAtSlices | src/pages/auth/Register.jsx:136-142 | removing by index is the list before the index followed by the list after it; an out-of-range index leaves the list as it was |
| TagList.RemoveAtKeepsNoDuplicates | src/pages/dashboard/Settings.jsx:378-383 | removing by index keeps a duplicate-free list duplicate-free |
| TagList.Without | src/pages/auth/Register.jsx:113-116 | the value is gone and every other element's membership is unchanged |
| TagList.Toggle | src/pages/auth/Register.jsx:110-123 | the value is present afterwards exactly when it was absent before; every other value keeps its membership |
| TagList.ToggleTwiceMembership | src/pages/auth/Register.jsx:110-123 | toggling twice restores every value's membership |
| TagList.ToggleTwiceAbsent | src/pages/auth/Register.jsx:110-123 | toggling an absent value twice restores the list exactly |
| TagList.ToggleKeepsNoDuplicates | src/pages/auth/Register.jsx:110-123 | toggling keeps a duplicate-free list duplicate-free |
| Register.StepError | src/pages/auth/Register.jsx:174-233 | no message exactly when the step's requirements hold. On step 1 each of the five messages appears exactly when all earlier checks pass and its own check fails. Step 2 and step 4 have one message each; every other step passes |
| Register.StepRequirementsMet | src/pages/auth/Register.jsx:174-233 | step 1 needs the five contact fields, both passwords, equal and at least 8 long, and the terms agreed; step 2 the title, years and level; step 4 a desired title and a work mode; steps 3 and 5 nothing |
| Register.TextAfterWithText | src/pages/auth/Register.jsx:95-108 | a text-field change sets that field and leaves every other text and list field as it was |
| Register.TagsAfterWithTags | src/pages/auth/Register.jsx:110-142 | writing a list field sets it and leaves every other list and text field alone |
| Register.WithTagsOnlyTouches | src/pages/auth/Register.jsx:110-142 | a second write to a list field overrides the first; writing a field's own value back changes nothing |
| Register.TagName | src/pages/auth/Register.jsx:278-301 | every list field is sent under one of the skill or preference part names |
| Register.PartNamesDistinct | src/pages/auth/Register.jsx:261-302 | the non-file part names of the payload are pairwise distinct |
| Register.FieldPartNames | src/pages/auth/Register.jsx:261-302 | the text and JSON parts carry the 29 names in append order |
| Register.FilePartsShape | src/pages/auth/Register.jsx:305-310 | the file parts are files named "profilePicture" or "resume" |
| Register.FieldPartsCount | src/pages/auth/Register.jsx:261-302 | each non-file name is carried by exactly one text or JSON part |
| Register.CountInSerialize | src/pages/auth/Register.jsx:258-310 | each of the 29 names appears exactly once in the payload |
| Register.CountNotInSerialize | src/pages/auth/Register.jsx:258-310 | any other name except the two file names appears nowhere in the payload |
| Register.SkillListPart | src/pages/auth/Register.jsx:278-281 | each skill list is among the skill parts as JSON under its own name |
| Register.PreferenceListPart | src/pages/auth/Register.jsx:285-301 | each preference list is among the preference parts as JSON under its own name |
| Register.SerializeListFields | src/pages/auth/Register.jsx:278-302 | each string-list field is sent as one JSON part under its own name, holding the draft's list |
| Register.SerializeCertifications | src/pages/auth/Register.jsx:282 | the certifications are one JSON part holding the draft's records |
| Register.SerializeLanguages | src/pages/auth/Register.jsx:283 | the languages are one JSON part holding the draft's records |
| Register.SerializeEducation | src/pages/auth/Register.jsx:284 | the education entries are one JSON part holding the draft's records |
| Register.SerializeName | src/pages/auth/Register.jsx:261 | the payload opens with the single `name` part, "first last" |
| Register.BasicParts | src/pages/auth/Register.jsx:260-267 | seven text parts in order: "first last" as `name`, then email, password, phone, location, linkedin and portfolio |
| Register.ProfessionalParts | src/pages/auth/Register.jsx:269-275 | six text parts in order: job title, years of experience, experience level, current company, industry and summary |
| Register.SkillParts | src/pages/auth/Register.jsx:277-284 | seven JSON parts: the four skill lists, then certifications, languages and education |
| Register.PreferenceParts | src/pages/auth/Register.jsx:285-302 | the step-4 lists as JSON parts and the three salary fields as text, in the handler's order |
| Register.FieldParts | src/pages/auth/Register.jsx:260-302 | the basic, professional, skill and preference parts, in that order |
| Register.FileParts | src/pages/auth/Register.jsx:304-310 | the profile picture and then the resume, each only when one was chosen |
| Register.Serialize | src/pages/auth/Register.jsx:258-310 | the payload: every field part followed by the file parts; the `Serialize` lemmas state what it carries |
| Register.SerializeOmitsConfirmation | src/pages/auth/Register.jsx:258-310 | the password confirmation is never sent |
| Register.FieldPartsNoFiles | src/pages/auth/Register.jsx:261-301 | none of the text and JSON parts is a file |
| Register.SerializeFileCount | src/pages/auth/Register.jsx:305-310 | the payload holds one file part per chosen file and no other file part |
| Register.SerializeProfilePicture | src/pages/auth/Register.jsx:305-307 | the profile picture is sent once exactly when one was chosen |
| Register.SerializeResume | src/pages/auth/Register.jsx:308-310 | the resume is sent once exactly when one was chosen |
| Register.Wizard.constructor | src/pages/auth/Register.jsx:17-91 | step 1, the initial draft and staging records, no error, not loading, terms not agreed |
| Register.Wizard.HandleChange | src/pages/auth/Register.jsx:95-108 | the draft takes the new text value; the step stays in 1..5 and list fields stay duplicate-free |
| Register.Wizard.ChooseFile | src/pages/auth/Register.jsx:97-101 | the chosen file, or none, replaces that file field and nothing else |
| Register.Wizard.SetAgreedToTerms | src/pages/auth/Register.jsx:524-525 | only the terms flag changes |
| Register.Wizard.SetStaging | src/pages/auth/Register.jsx:71-91 | only the staging inputs change |
| Register.Wizard.Next | src/pages/auth/Register.jsx:235-242 | when the step validates, the error is cleared and the step advances, except from step 5. Otherwise the step stays and the error is that step's first failing message |
| Register.Wizard.Previous | src/pages/auth/Register.jsx:244-250 | from a step above 1 it goes back one and clears the error, without validating; at step 1 nothing changes |
| Register.Wizard.AddToArray | src/pages/auth/Register.jsx:125-134 | returns true exactly when the value is non-empty and absent; the list is extended then, everything else is unchanged, and lists stay duplicate-free |
| Register.Wizard.CommitInput | src/pages/auth/Register.jsx:640-650 | the typed value is added, and the input is cleared exactly when the add went ahead |
| Register.Wizard.RemoveFromArray | src/pages/auth/Register.jsx:136-142 | the chosen list loses the element at the index and nothing else changes |
| Register.Wizard.ToggleValue | src/pages/auth/Register.jsx:110-123 | the list becomes its toggle: the value is present exactly when it was absent; lists stay duplicate-free |
| Register.Wizard.AddCertification | src/pages/auth/Register.jsx:144-152 | with name and organization filled in, the staged record is appended and reset; otherwise the draft and staging are unchanged |
| Register.Wizard.AddLanguage | src/pages/auth/Register.jsx:154-162 | the same, guarded by language and proficiency |
| Register.Wizard.AddEducation | src/pages/auth/Register.jsx:164-172 | the same, guarded by degree and institution |
| Register.Wizard.Submit | src/pages/auth/Register.jsx:252-324 | exactly one registration is posted, and it is the multipart request built from `Serialize` of the draft. Success stores the response's token, signs the session in and navigates to /dashboard. Failure leaves the token and location as the interceptor does and shows the server message, else the exception message, else "Failed to create account.". The wizard's loading ends false and the session's loading flag is untouched |
| Http.ErrorText | src/pages/auth/Register.jsx:316-320 | the server's message when it has one, else the exception's message when not empty, else the fallback |
| Settings.NameParts | src/pages/dashboard/Settings.jsx:107-108 | without a name both parts are empty. Otherwise neither part holds a space; the first part is the whole name or is followed in it by a space; the second part starts right after that space, and is empty when there is none |
| Settings.NamePartsRoundTrip | src/pages/dashboard/Settings.jsx:107-108 | the "first last" name the wizard sends splits back into the two names |
| Settings.NamePartsDropsLaterWords | src/pages/dashboard/Settings.jsx:107-108 | a name of three words keeps only the first two |
| Settings.OneWord | src/pages/dashboard/Settings.jsx:107-108 | a one-word name is the first name, with an empty last name |
| Settings.PersonalFrom | src/pages/dashboard/Settings.jsx:51-60 | the personal form is the name split plus each user attribute or "" |
| Settings.WithSkillList | src/pages/dashboard/Settings.jsx:367-383 | writing one skill list sets it and leaves the other lists and records alone |
| Settings.CertificationReadyMeans | src/pages/dashboard/Settings.jsx:386 | the certification guard holds exactly when the name has a non-blank character |
| Settings.OutcomeMessage | src/pages/dashboard/Settings.jsx:236-245 | success gives the success text; failure gives the server message or the fallback; the text is never empty |
| Settings.SettingsPage.BeginRequest | src/pages/dashboard/Settings.jsx:231-235 | loading is set, then the message is cleared, then the request for the path is sent, each logged in that order; the forms are unchanged |
| Settings.SettingsPage.FinishRequest | src/pages/dashboard/Settings.jsx:236-247 | the final message is set and then loading is cleared, each logged in that order; the forms are unchanged |
| Settings.SettingsPage.constructor | src/pages/dashboard/Settings.jsx:51-180 | the personal form comes from the session's user; the password form, message and staging are empty |
| Settings.SettingsPage.SyncFromUser | src/pages/dashboard/Settings.jsx:104-145 | a present user refills the personal form from the user's name, email, phone, location and links, and replaces the skill lists with `userSkills`, the lists derived from the user's `skills` and `education` (given as an input); no user changes nothing |
| Settings.SaveMessage | src/pages/dashboard/Settings.jsx:229-311 | a save's message is never blank: the form's success text on success, otherwise the server's message or the form's fallback |
| Settings.SectionPath | src/pages/dashboard/Settings.jsx:235-351 | the resource each form is written to |
| Settings.SuccessText | src/pages/dashboard/Settings.jsx:236-355 | each form's success text, never blank |
| Settings.FallbackText | src/pages/dashboard/Settings.jsx:241-360 | each form's error text when the server sends no message, never blank |
| Settings.SettingsPage.Save | src/pages/dashboard/Settings.jsx:229-311 | the log grows by five steps, in the handler's order: loading on, message cleared, `PUT` to the form's path, the outcome's message, loading off. The final message is the form's success text or the error text and is never blank. The forms are unchanged. The token and location follow the interceptor |
| Settings.SettingsPage.UpdatePassword | src/pages/dashboard/Settings.jsx:313-343 | a mismatch sets "New passwords do not match", logs only that message and sends no request. Otherwise the log grows by loading on, message cleared, `PUT /users/password`, the outcome's message, loading off, in that order; the token and location follow the interceptor, and success empties all three password fields |
| Settings.SettingsPage.SetPasswords | src/pages/dashboard/Settings.jsx:1282 | only the password form changes |
| Settings.SettingsPage.SetStaging | src/pages/dashboard/Settings.jsx:925-950 | only the staging inputs change |
| Settings.SettingsPage.AddToArray | src/pages/dashboard/Settings.jsx:367-376 | returns true exactly when the value is non-empty and absent; then the skill list is extended, otherwise it is unchanged |
| Settings.SettingsPage.CommitInput | src/pages/dashboard/Settings.jsx:809-833 | the typed skill is added, and the input is cleared exactly when the add went ahead |
| Settings.SettingsPage.RemoveFromArray | src/pages/dashboard/Settings.jsx:378-383 | the skill list loses the element at the index; nothing else changes |
| Settings.SettingsPage.AddCertification | src/pages/dashboard/Settings.jsx:385-392 | with a non-blank name, the certification is appended and staging reset; organization and date are not checked; otherwise nothing changes |
| Settings.SettingsPage.RemoveCertification | src/pages/dashboard/Settings.jsx:394-399 | the certifications lose the element at the index |
| Settings.SettingsPage.AddLanguage | src/pages/dashboard/Settings.jsx:401-408 | guarded by the trimmed language alone |
| Settings.SettingsPage.RemoveLanguage | src/pages/dashboard/Settings.jsx:410-415 | the languages lose the element at the index |
| Settings.SettingsPage.AddEducation | src/pages/dashboard/Settings.jsx:417-424 | guarded by the trimmed degree alone |
| Settings.SettingsPage.RemoveEducation | src/pages/dashboard/Settings.jsx:426-431 | the education entries lose the element at the index |
| AuthProvider.SplitToken | src/context/AuthProvider.jsx:32 | the token is present exactly when the response has one. The rest keeps every other attribute unchanged and drops the token |
| AuthProvider.SplitTokenRoundTrip | src/context/AuthProvider.jsx:32 | putting the token back into the rest gives the response data again |
| AuthProvider.RegisterRequest | src/context/AuthProvider.jsx:47-58 | multipart input passes through with a multipart content type. Plain input becomes name "first last", email and password, with no extra headers |
| AuthProvider.Session.constructor | src/context/AuthProvider.jsx:6-8 | no user, not authenticated, no registration posted, and loading exactly when a token is stored |
| AuthProvider.Session.CheckAuth | src/context/AuthProvider.jsx:10-23 | with a token, success sets the user and signs in; failure removes the token, signs out and gets "/login" assigned when the interceptor's redirect decision holds. Without a token nothing is requested. Loading ends false in every case |
| AuthProvider.Session.Login | src/context/AuthProvider.jsx:29-44 | a token in the response is stored and the rest becomes the user. Without a token the call rejects with "No authentication token received" and changes nothing. A failed request is rethrown unchanged, with the session kept and the token and location as the interceptor leaves them |
| AuthProvider.Session.Register | src/context/AuthProvider.jsx:46-68 | the posted request, `RegisterRequest(input)`, is appended to the registration log. Success stores the token, sets the user to the rest and signs in; failure is rethrown with the session kept and the token and location as the interceptor leaves them |
| AuthProvider.StoredForm | src/context/AuthProvider.jsx:63 | the text `localStorage` keeps for the token: the token itself, or "undefined" when the response has none |
| AuthProvider.Session.Logout | src/context/AuthProvider.jsx:70-74 | the token and user are gone and the session is signed out |
| AuthProvider.Session.UpdateUser | src/context/AuthProvider.jsx:76-78 | only the user is replaced |
| JobProvider.JobStore.constructor | src/context/JobProvider.jsx:9-10 | both lists and the log of posted applications start empty |
| JobProvider.JobStore.ExposedSavedJobs | src/context/JobProvider.jsx:72 | empty whenever signed out, the stored list otherwise |
| JobProvider.JobStore.ExposedApplications | src/context/JobProvider.jsx:73 | empty whenever signed out, the stored list otherwise |
| JobProvider.JobStore.Refresh | src/context/JobProvider.jsx:11-38 | fetches only while signed in; each success replaces its list, each failure keeps it, and both outcomes pass the interceptor in order. Signed out, the browser state is untouched |
| JobProvider.JobStore.SaveJob | src/context/JobProvider.jsx:40-48 | the job is appended only after a successful post; a failure is rethrown with the list unchanged and the token and location as the interceptor leaves them |
| JobProvider.JobStore.UnsaveJob | src/context/JobProvider.jsx:50-58 | every job with the id is removed, the rest kept; a failure is rethrown with the list unchanged and the token and location as the interceptor leaves them |
| JobProvider.JobStore.ApplyToJob | src/context/JobProvider.jsx:60-69 | the request is appended to the log of posted applications. The server's record is appended and returned; a failure is rethrown with the list unchanged and the token and location as the interceptor leaves them |
| Jobs.RemoveById | src/context/JobProvider.jsx:53 | no kept job has the id, and a job is kept exactly when it was there with another id |
| Jobs.FirstLocationName | src/pages/jobs/JobDetails.jsx:102 | the name of the job's first location, when it has one |
| Jobs.RemoveByIdAppend | src/context/JobProvider.jsx:53 | removal keeps order: removing from a concatenation removes from each half |
| Jobs.RemoveByIdAbsent | src/pages/jobs/SavedJobs.jsx:38 | removing an id that no job carries changes nothing |
| Jobs.SaveThenUnsave | src/context/JobProvider.jsx:40-58 | saving a job and then unsaving its id leaves what unsaving alone would leave |
| Api.WithBearer | src/services/api.js:14-21 | with a token, Authorization is "Bearer <token>" and every other header is untouched; without one the headers are unchanged |
| Api.AttachToken | src/services/api.js:15-20 | the headers are decorated with the stored token |
| Api.IsProtectedRoute | src/services/api.js:41-52 | the route test: one of the six prefixes starts the path, or the path is "/jobs/saved" (spelled out by `ProtectedRouteCases`) |
| Api.IsLoginRequest | src/services/api.js:31-34 | a request is the login request exactly when its url is present and contains "/users/login" |
| Api.ShouldRedirect | src/services/api.js:35-56 | "/login" is assigned only for a 401 on a protected route, for a request other than the login request, away from the login page |
| Api.TokenAfter | src/services/api.js:37-38 | the token the interceptor leaves: none after a 401, the old one otherwise |
| Api.RedirectAfter | src/services/api.js:54-56 | "/login" once when the request failed and the redirect decision holds, nothing otherwise |
| Api.ProtectedRouteCases | src/services/api.js:41-52 | a path is protected exactly when it starts with one of the six prefixes or is "/jobs/saved" |
| Api.LoginPageTestRedundant | src/services/api.js:31-56 | the redirect decision is the same with or without the "not on /login" test |
| Api.OnResponseError | src/services/api.js:30-58 | a 401 removes the token, and "/login" is assigned exactly when the redirect decision holds. Other errors touch nothing, and the error is always passed on |
| Api.Settle | src/services/api.js:28-59 | a response passes through untouched; an error leaves the token and location as `OnResponseError` does |
| Api.LoginFailureStays | src/services/api.js:31-34 | a failed request to "/users/login" never assigns "/login", whatever its status |
| Applications.NormalizedStatus | src/pages/dashboard/Applications.jsx:56 | a non-empty status lower-cased; "applied" when missing or empty |
| Applications.StatusBadge | src/pages/dashboard/Applications.jsx:55-81 | one of the four badges. A known key gives the badge whose caption lower-cases to it; anything else gives the Applied badge |
| Applications.StatusConfig | src/pages/dashboard/Applications.jsx:58-79 | the table's own entries: the four lower-case keys and their badges |
| Applications.StatusBadgeAsWritten | src/pages/dashboard/Applications.jsx:55-81 | the lookup as written, which also finds inherited object members; such a badge is blank |
| Applications.StatusBadgeConstructorBlank | src/pages/dashboard/Applications.jsx:81 | as written, the status "constructor" finds no badge; the corrected lookup gives Applied |
| Applications.StatusBadgeAsWrittenAgrees | src/pages/dashboard/Applications.jsx:58-81 | apart from the two inherited names, the code as written shows the corrected badge |
| Applications.FilterCount | src/pages/dashboard/Applications.jsx:92-97 | "all" counts every application; another tab counts the applications with that lower-cased status; never more than the total |
| Applications.HasStatus | src/pages/dashboard/Applications.jsx:95 | an application is in a tab when its status is present and lower-cases to the tab's key |
| Applications.FilterCountIsCount | src/pages/dashboard/Applications.jsx:94-96 | a tab's count equals the number of applications with that status |
| Applications.StatusTabsWithinAll | src/pages/dashboard/Applications.jsx:92-97 | the four status tabs together count at most "all" |
| Applications.MissingStatusNotCounted | src/pages/dashboard/Applications.jsx:56 | an application without a status shows Applied yet is not counted under Applied |
| Applications.StatusParams | src/pages/dashboard/Applications.jsx:25 | no parameter for "all", otherwise exactly `status` = the tab |
| Applications.ApplicationsPage.constructor | src/pages/dashboard/Applications.jsx:14-16 | no applications, loading, filter "all", nothing sent |
| Applications.ApplicationsPage.Fetch | src/pages/dashboard/Applications.jsx:22-33 | logs the tab's parameters; success replaces the list, failure keeps it; loading ends false; the token and location follow the interceptor |
| Applications.ApplicationsPage.SelectTab | src/pages/dashboard/Applications.jsx:18-20 | the filter becomes the key; a different key fetches the list for it, while the active tab's key sends nothing and changes nothing |
| Applications.ApplicationsPage.UpdateStatus | src/pages/dashboard/Applications.jsx:35-42 | the new status is sent for the application's id and logged. A failed update changes only what the interceptor changes; success refetches the current tab |
| Applications.ApplicationsPage.Delete | src/pages/dashboard/Applications.jsx:44-53 | nothing without confirmation. Confirmed, the delete for the application's id is sent and logged; a failure changes only what the interceptor changes, a success refetches the current tab |
| CustomDropdown.Selected | src/components/common/CustomDropdown.jsx:44-45 | the provided option when given. Otherwise the first option with that value, or none when no option has it |
| CustomDropdown.Filtered | src/components/common/CustomDropdown.jsx:48-55 | all options without search or with an empty term. Otherwise the custom filter's result, or exactly the options whose lower-cased label contains the lower-cased term |
| CustomDropdown.LabelMatches | src/components/common/CustomDropdown.jsx:52-54 | the lower-cased label contains the lower-cased term |
| CustomDropdown.DefaultFilterKeepsOrder | src/components/common/CustomDropdown.jsx:52-54 | the default filter keeps order: filtering a concatenation filters each half |
| CustomDropdown.Dropdown.constructor | src/components/common/CustomDropdown.jsx:39-40 | closed, empty search |
| CustomDropdown.Dropdown.Toggle | src/components/common/CustomDropdown.jsx:103 | the trigger flips `isOpen` |
| CustomDropdown.Dropdown.MouseDown | src/components/common/CustomDropdown.jsx:58-66 | a mouse-down outside the wrapper closes the menu, one inside leaves it |
| CustomDropdown.Dropdown.TypeSearch | src/components/common/CustomDropdown.jsx:140 | only the search term changes |
| CustomDropdown.Dropdown.HandleSelect | src/components/common/CustomDropdown.jsx:68-72 | reports the option's value, clears the search and closes the menu |
| LocationCombobox.CountryOption | src/components/common/LocationCombobox.jsx:15-19 | a country's option carries its name as label and value and its ISO code |
| LocationCombobox.LocationOptions | src/components/common/LocationCombobox.jsx:121-130 | Remote first, then one option per country in order |
| LocationCombobox.CountryNamed | src/components/common/LocationCombobox.jsx:49 | a country with that name, or none exactly when no country has it |
| LocationCombobox.CountryCoded | src/components/common/LocationCombobox.jsx:93 | a country with that code, or none exactly when no country has it |
| LocationCombobox.SelectedOption | src/components/common/LocationCombobox.jsx:32-69 | none exactly for a missing or empty value; "Remote" gives the Remote entry. Otherwise the result is a country named by the value, else a city whose second comma part names a country (with that code), else "unknown" with code "". It is always captioned with the value |
| LocationCombobox.CityCaption | src/components/common/LocationCombobox.jsx:93-97 | starts with the city's name and ", " |
| LocationCombobox.CityOption | src/components/common/LocationCombobox.jsx:96-101 | value equals label, badge "City", the city's own country code |
| LocationCombobox.CitySuggestions | src/components/common/LocationCombobox.jsx:89-112 | at most one suggestion per city, each with the "City" badge |
| LocationCombobox.MatchingOptions | src/components/common/LocationCombobox.jsx:80-82 | exactly the options whose caption matches, in their order |
| LocationCombobox.MatchingCities | src/components/common/LocationCombobox.jsx:92 | exactly the cities whose name matches, in dataset order |
| LocationCombobox.CitySuggestionsMatching | src/components/common/LocationCombobox.jsx:89-112 | the k-th suggestion is the option of the k-th city whose lower-cased name contains the search, in dataset order, and there is one per matching city |
| LocationCombobox.CitySuggestionsPrefix | src/components/common/LocationCombobox.jsx:89-112 | the suggestions for a prefix of the dataset are a prefix of the suggestions for all of it |
| LocationCombobox.LocationResults | src/components/common/LocationCombobox.jsx:72-118 | a blank search gives the options unchanged. Otherwise the result starts with exactly the options whose caption matches, in order. A search shorter than two characters gives only those; a longer one follows them with the first min(n, 51) of the n city suggestions |
| LocationCombobox.LocationResultsSources | src/components/common/LocationCombobox.jsx:72-118 | every result of a non-blank search is a matching option or the option of a city whose name matches |
| LocationCombobox.FilterLocationOptions | src/components/common/LocationCombobox.jsx:72-118 | the loop with its early break computes exactly `LocationResults` |
| LocationCombobox.CaptionCountryPart | src/components/common/LocationCombobox.jsx:48 | the second comma part of "City, Country" is the country's name |
| LocationCombobox.CountryPart | src/components/common/LocationCombobox.jsx:48 | the trimmed text between the first comma and the next one, or the end |
| LocationCombobox.SelectedCity | src/components/common/LocationCombobox.jsx:47-65 | a comma value that names no country but whose country part does is a city with that country's code |
| LocationCombobox.NoCountryNamed | src/components/common/LocationCombobox.jsx:43 | no country is named by a comma text when no country name has a comma |
| LocationCombobox.UniqueCountryNamed | src/components/common/LocationCombobox.jsx:49 | a uniquely named country is the one found by its name |
| LocationCombobox.CityCaptionOf | src/components/common/LocationCombobox.jsx:93-97 | a city's caption is "name, country name" when its code finds that country |
| LocationCombobox.CitySelectionRoundTrip | src/components/common/LocationCombobox.jsx:32-112 | choosing a city suggestion shows it again as a city carrying the city's own country code |
| Navbar.ActivePathBelow | src/components/layout/Navbar.jsx:50-55 | a link is active on every path below it; the home link only on "/" |
| Navbar.IsActivePath | src/components/layout/Navbar.jsx:50-55 | "/" is active only on "/"; any other link on every path it starts |
| Navbar.ActiveLinks | src/components/layout/Navbar.jsx:50-67 | the visible links whose path is active, in menu order |
| Navbar.SearchParams | src/components/layout/Navbar.jsx:31-39 | the trimmed query as `search` when not empty, then `location` or `type=remote` as the location calls for |
| Navbar.NavLinks | src/components/layout/Navbar.jsx:57-67 | Home, Find Job and Dashboard always come first; Applications and Saved Jobs follow exactly when signed in |
| Navbar.SavedJobsPathMatches | src/components/layout/Navbar.jsx:50-55 | "/jobs/saved" matches the Find Job and Saved Jobs paths and none of the other three |
| Navbar.SavedJobsPageHighlightsTwo | src/components/layout/Navbar.jsx:50-67 | on /jobs/saved both Find Job and Saved Jobs are highlighted |
| Navbar.SearchParamsMeaning | src/components/layout/Navbar.jsx:31-39 | `search` with the trimmed query exactly when that is not empty. Then `type=remote` for "Remote" or `location` for any other non-empty location. Empty exactly when both are |
| Navbar.AppendSearchParams | src/components/layout/Navbar.jsx:31-39 | the step-by-step appends build exactly `SearchParams` |
| Navbar.FormEncode | src/components/layout/Navbar.jsx:41 | the encoding of a name or value never holds `&`, `=` or a space |
| Navbar.FormEncodeUnreserved | src/components/layout/Navbar.jsx:41 | unreserved ASCII text is written as it is |
| Navbar.ParamsToString | src/components/layout/Navbar.jsx:41 | the query string is empty exactly when there are no parameters |
| Navbar.SingleParamText | src/components/layout/Navbar.jsx:41 | one parameter whose name and value need no encoding is written `name=value` |
| Navbar.ParamsSplit | src/components/layout/Navbar.jsx:41 | splitting the query string at `&` gives one `name=value` piece per parameter, in order |
| Navbar.SearchTarget | src/components/layout/Navbar.jsx:41-45 | "/jobs" without parameters, else "/jobs?" followed by the query string |
| Navbar.SearchTargetAsWritten | src/components/layout/Navbar.jsx:41-45 | the target as the code writes it: "/ jobs ? ", the query string and a trailing space, or "/jobs" without parameters |
| Navbar.SearchNavigation | src/components/layout/Navbar.jsx:31-45 | the parameters appended one by one and the query string built from them give exactly the intended target |
| Navbar.SearchTargetAsWrittenMissesJobs | src/components/layout/Navbar.jsx:42 | with any parameter the target as written does not start with "/jobs" |
| Navbar.SearchForReact | src/components/layout/Navbar.jsx:42 | searching "react" with no location goes to "/ jobs ? " + "search=react" + " " as written, "/jobs?" + "search=react" as intended |
| Navbar.Header.constructor | src/components/layout/Navbar.jsx:17-20 | menus closed, empty search and location |
| Navbar.Header.SetSearch | src/components/layout/Navbar.jsx:132-139 | only the query and location change |
| Navbar.Header.ToggleSearch | src/components/layout/Navbar.jsx:152 | only the search panel flag flips |
| Navbar.Header.SetMobileMenu | src/components/layout/Navbar.jsx:175 | only the mobile menu flag changes |
| Navbar.Header.HandleSearch | src/components/layout/Navbar.jsx:28-47 | navigates to the intended target for the current query and location and closes the search panel |
| Navbar.Header.HandleLogout | src/components/layout/Navbar.jsx:22-26 | the session is cleared, "/" is navigated to and the mobile menu closes |
| JobSearch.With | src/pages/jobs/JobSearch.jsx:78-84 | the named filter takes the value; every other filter keeps its own |
| JobSearch.HasActiveFiltersMeans | src/pages/jobs/JobSearch.jsx:102 | active exactly when some filter is non-empty, and exactly when the filters differ from the cleared ones |
| JobSearch.HasActiveFilters | src/pages/jobs/JobSearch.jsx:102 | some filter value is not empty |
| JobSearch.FilterChangeActivates | src/pages/jobs/JobSearch.jsx:78-102 | setting a filter to a non-empty value activates; cleared filters are inactive |
| JobSearch.RequestFor | src/pages/jobs/JobSearch.jsx:52-58 | the search carries the query, the page, the location, the experience level as `level`, and every filter |
| JobSearch.JobSearchPage.constructor | src/pages/jobs/JobSearch.jsx:14-27 | the query and location come from the URL, other filters empty, page 1 |
| JobSearch.JobSearchPage.SyncFromUrl | src/pages/jobs/JobSearch.jsx:33-43 | query and location follow the URL and the page resets to 1 |
| JobSearch.JobSearchPage.FilterChange | src/pages/jobs/JobSearch.jsx:78-84 | one filter changes, the others stay, and the page resets to 1 |
| JobSearch.JobSearchPage.ClearFilters | src/pages/jobs/JobSearch.jsx:86-96 | all five filters and the query become empty, so no filter is active, and the page is 1 |
| JobSearch.JobSearchPage.LoadMore | src/pages/jobs/JobSearch.jsx:98-100 | the page grows by exactly one |
| JobSearch.JobSearchPage.FetchJobs | src/pages/jobs/JobSearch.jsx:49-76 | page 1 replaces the list and a later page is appended. `hasMore` is page < page count. A failure changes neither, and loading ends false |
| JobDetails.SimilarJobs | src/pages/jobs/JobDetails.jsx:60 | at most three jobs, none with the shown id, the first ones of the filtered results in order |
| JobDetails.SimilarJobsWithoutSelf | src/pages/jobs/JobDetails.jsx:60 | when the shown job is not among the results, the first three results |
| JobDetails.ApplicationFor | src/pages/jobs/JobDetails.jsx:98-104 | id, name and company of the job, status "Applied", and the first location's name or "Remote" |
| JobDetails.JobDetailsPage.constructor | src/pages/jobs/JobDetails.jsx:26-31 | no job, loading, not saved, not applied |
| JobDetails.JobDetailsPage.FetchJobDetails | src/pages/jobs/JobDetails.jsx:44-54 | success shows the job, failure keeps it; loading ends false; the job service bypasses the interceptor, so the browser state is untouched |
| JobDetails.JobDetailsPage.FetchSimilarJobs | src/pages/jobs/JobDetails.jsx:38-65 | only for a job with a name and a successful search are the similar jobs set |
| JobDetails.JobDetailsPage.CheckJobStatus | src/pages/jobs/JobDetails.jsx:67-79 | only when both requests succeed: saved from the response, applied exactly when the list is non-empty. Both outcomes pass the interceptor |
| JobDetails.JobDetailsPage.SaveJob | src/pages/jobs/JobDetails.jsx:81-93 | sends a delete when saved and a post otherwise; the flag flips only on success; the token and location follow the interceptor |
| JobDetails.JobDetailsPage.Apply | src/pages/jobs/JobDetails.jsx:95-114 | posts the application for a loaded job, the token and location following the interceptor; success marks it applied; without a job nothing is sent; `applying` ends false |
| JobDetails.JobDetailsPage.ExternalApply | src/pages/jobs/JobDetails.jsx:116-121 | with a landing page it is opened and the job applied to; without one nothing changes |
| SavedJobs.CountNoun | src/pages/jobs/SavedJobs.jsx:77 | "Job" exactly for one, "Jobs" otherwise |
| SavedJobs.VisibleTags | src/pages/jobs/SavedJobs.jsx:175 | the first four tags, or all of them when fewer |
| SavedJobs.MoreChip | src/pages/jobs/SavedJobs.jsx:183-187 | a chip exactly when there are more than four tags, counting at least one |
| SavedJobs.TagsAccounted | src/pages/jobs/SavedJobs.jsx:173-187 | shown tags plus the chip's number is the number of tags |
| SavedJobs.LocationText | src/pages/jobs/SavedJobs.jsx:146 | the first location's name, else `location`, else "Remote"; never empty |
| SavedJobs.StripTags | src/pages/jobs/SavedJobs.jsx:167 | no longer than the input, no `<` followed by `>`, only characters of the input, and unchanged input without `<` |
| SavedJobs.StripTagsNoTag | src/pages/jobs/SavedJobs.jsx:167 | text without a complete tag is left unchanged, so stripping is idempotent |
| SavedJobs.StripTagsDropsTag | src/pages/jobs/SavedJobs.jsx:167 | a complete tag at the front is removed whole, and stripping goes on after it |
| SavedJobs.StripTagsKeepsChar | src/pages/jobs/SavedJobs.jsx:167 | a character that does not open a tag is kept in front of the stripped rest |
| SavedJobs.DescriptionText | src/pages/jobs/SavedJobs.jsx:164-169 | the description, else the first 150 characters of the stripped contents plus "...", else "No description available" |
| SavedJobs.SavedJobsPage.constructor | src/pages/jobs/SavedJobs.jsx:15-16 | no saved jobs, loading |
| SavedJobs.SavedJobsPage.Fetch | src/pages/jobs/SavedJobs.jsx:22-33 | success replaces the list, failure keeps it; loading ends false; the token and location follow the interceptor |
| SavedJobs.SavedJobsPage.Unsave | src/pages/jobs/SavedJobs.jsx:35-42 | the delete is sent; only on success is every job with the id removed, the rest kept in order; the token and location follow the interceptor |
| SavedJobs.SavedJobsPage.CountLabel | src/pages/jobs/SavedJobs.jsx:77 | the number of saved jobs and the matching noun |

## Left out

- HTTP, `localStorage` beyond the `token` entry, `alert`, `confirm`, `window.open` and routing are not modelled as services. Requests and the confirm answer are inputs, and navigations, location assignments and opened tabs are recorded logs. Nothing reads a log back, so a navigation to the search page does not feed the job search page.
- React scheduling is not modelled. Each handler is one atomic step; batching, effects re-running on dependency changes, and stale closures over `formData`, `skillsInfo` or `jobs` are outside the model.
- Register.Wizard.Submit, Settings.SettingsPage.Save: the request bodies are not modelled as JSON text. `JSON.stringify` output is represented by the structured collection it serialises, and a settings save records only the path it writes to.
- Register.StepError: the password length is counted in characters. JavaScript counts UTF-16 code units, so the two differ for characters outside the Basic Multilingual Plane.
- SavedJobs.DescriptionText: `substring(0, 150)` is modelled on characters. It is not modelled on UTF-16 code units, so an excerpt that would split a surrogate pair is not reproduced.
- Applications.NormalizedStatus, CustomDropdown.Filtered, LocationCombobox.LocationResults: `toLowerCase` is modelled for ASCII letters only. Full Unicode case mapping is not.
- Ids are modelled as strings, compared with `!==` as strings. The external job service may return numeric ids, and the string/number mismatch is outside the model.
- JobSearch: the 500 ms debounce is not modelled. `FetchJobs` takes the debounced query as a parameter.
- LocationCombobox: the country and city datasets are inputs, and the flag image URLs and icons are not modelled. The city cap is modelled as written: the loop stops only once more than 50 have matched, so up to 51 cities are suggested.
- Navbar: the current `location.pathname` is a parameter of the active-link predicates. `URLSearchParams` is modelled by its form encoding (UTF-8 bytes, `+` for space, `%XX` otherwise); decoding on the other side is not modelled.
- Settings.SettingsPage.SyncFromUser: the `[user]` effect also resets the professional and job-preference forms from the user record. Those forms are not modelled as state, so the model does not promise that reset. The skill lists are not derived from the user record either: the user is modelled as flat string attributes, so the lists the effect reads (`user.skills?.primary || []`, the other three skill lists, certifications, languages and `user.education || []`) are passed in as `userSkills`, and the model promises only that the form takes them.
- Settings: `handleFileChange`, `handleRemovePicture` and `handleDeleteAccount` are not modelled; they upload, delete or redirect through foreign services. The professional, preference and notification forms are modelled only through their save handlers. Their field-level editing is not modelled.
- Rendering, markup, the progress-bar width (floating point) and the file-size display are not modelled.
- src/utils/textFormatter.js, the server scripts and the presentational components are not part of this model.

## Findings

| source | as written | input that shows it | evidently intended | confidence | as-written member | corrected member |
|---|---|---|---|---|---|---|
| src/components/layout/Navbar.jsx:42 | the navigation target is the template `/ jobs ? ${params} `, with spaces around "jobs" and "?" and after the parameters | query "react", no location: the target is "/ jobs ? search=react " (`Navbar.SearchForReact`); with any parameter it does not start with "/jobs" (`Navbar.SearchTargetAsWrittenMissesJobs`) | "/jobs?search=react" | not executed; high | Navbar.SearchTargetAsWritten | Navbar.SearchTarget |
| src/pages/dashboard/Applications.jsx:81 | `statusConfig[normalizedStatus]` looks the status up on a plain object literal, so the inherited names "constructor" and "__proto__" find a truthy non-badge value | status "constructor": the badge renders with undefined colours and caption (`Applications.StatusBadgeConstructorBlank`) | the Applied badge, as for any other unknown status | not executed; medium | Applications.StatusBadgeAsWritten | Applications.StatusBadge |
