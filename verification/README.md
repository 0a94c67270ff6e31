# Freelancer Portfolio — a Dafny model of its core

Freelancer Portfolio is a portfolio builder. A freelancer registers, signs in
and edits one portfolio: a hero banner, an "about" section, experience and
certification entries, contact details, a theme, a gallery template and a
customization. They also keep a list of projects. Visitors read a public
portfolio by the owner's username, and each such read increments its view
counter.

This project models both halves of that core:

- **The server:**
  - the User, Portfolio and Project schemas, with their constraints, setters and defaults;
  - the user, portfolio and project request handlers, over a document store (`Database.Store`).
- **The client:**
  - the sign-up and sign-in pages;
  - the portfolio editor's validators, list edits, skills input, hydration and save payload;
  - the template gallery;
  - the two state reducers for projects and portfolios.

Every operation is a pure function. A handler takes the store and returns
`Result<Reply<T>>`. On success that is the new store and the response body.
On failure it is an error with a kind and the handler's message, and no
store, so a refused request cannot change anything. Three things become
function parameters:

- password hashing, hash comparison and token signing: `Hasher`, `Matcher`, `Signer`;
- the URL parser the schema's validators call: `UrlCheck`;
- the server answers a page receives.

Modules follow the program: `UserModel`, `PortfolioModel`, `ProjectModel`,
`Database`, `UserController`, `PortfolioController`, `ProjectController`,
`RegisterPage`, `LoginPage`, `PortfolioEditor`, `TemplateSelector`,
`ProjectSlice`, `PortfolioSlice`. Four supporting modules model the
JavaScript and regular-expression operations the core uses:

- `Common`: `Option`, `Result` and the error kinds;
- `Seqs`: `findOne` as `FindFirst`, `find` / `Array.filter` as `Filter`;
- `Text`: `trim`, `split`, `join`, `endsWith`;
- `Patterns`: the regular expressions.

Modelling conventions:

- An absent optional string is `""`. An absent date or flag is `None`.
- Enumerated fields hold strings, so that an out-of-range value can be stored and rejected.
- Saving with `document.save()` runs the schema's checks on the whole record.
- `findByIdAndUpdate` and `findOneAndUpdate` do not run the schema's checks.

## Model

| member | source | states |
|---|---|---|
| Database.UserByUsername | backend/controllers/portfolioController.js:24 | the first user with that username in store order, or none exactly when no user has it |
| Database.UserByEmail | backend/controllers/userController.js:71 | the first user with that email in store order, or none exactly when no user has it |
| Database.UserById | backend/controllers/userController.js:90-93 | the first user with that id, or none exactly when no user has it |
| Database.PortfolioById | backend/controllers/portfolioController.js:79 | the first portfolio with that id, or none exactly when none has it |
| Database.PortfolioOfOwner | backend/controllers/portfolioController.js:10 | the first portfolio owned by that user, or none exactly when the user owns none |
| Database.ProjectById | backend/controllers/projectController.js:16 | the first project with that id, or none exactly when none has it |
| Database.ProjectsOf | backend/controllers/projectController.js:8 | every result is a stored project of that owner, and every stored project of that owner is in the result |
| Database.ProjectsOfExact | backend/controllers/projectController.js:8 | the owner's projects come in store order, each record exactly as often as the store holds it, and no record of another owner |
| UserModel.NewUser | backend/models/userModel.js:5-55 | a created user carries the given id, name, email and hash, the trimmed username, role "Freelancer", the gravatar default avatar, an empty bio and no skills |
| UserModel.TrimKeepsValidUsername | backend/models/userModel.js:9-16 | a username made only of `[A-Za-z0-9_-]` is left unchanged by the trimming setter |
| UserModel.Valid | backend/models/userModel.js:5-55 | the User schema's per-record checks: a name, a username of at least three characters from `[A-Za-z0-9_-]`, an email matching the account pattern, a password, a bio of at most 500 characters, every proficiency within 1..5 |
| UserModel.ValidUsernameIsTrimmed | backend/models/userModel.js:9-16 | a valid stored username is unchanged by the trim setter, so a lookup that trims finds it |
| PortfolioModel.ValidIgnoresViews | backend/models/portfolioModel.js:225-228 | the view counter takes no part in validation: changing it never changes validity |
| PortfolioModel.DefaultsNeedContactEmail | backend/models/portfolioModel.js:104-252 | the schema defaults fail validation only for the required contact email: with a valid email they pass every constraint |
| PortfolioModel.Valid | backend/models/portfolioModel.js:3-252 | the Portfolio schema's checks: an owner, the template, background, theme, layout and spacing enumerations (each a listed value; the empty string is refused like any other), each experience, certification and testimonial entry, and the contact record with its required, pattern-checked email |
| PortfolioModel.ApplyBody | backend/controllers/portfolioController.js:88-113 | each supplied top-level key replaces its field, every other field and the id are kept; `ApplyThen` and `ApplyIdempotent` state how two updates compose |
| PortfolioModel.ApplyEmptyBody | backend/controllers/portfolioController.js:106-113 | an update body with no keys changes nothing |
| PortfolioModel.ApplyThen | backend/controllers/portfolioController.js:106-113 | two updates in turn equal one update with the combined body, the later keys winning |
| PortfolioModel.ApplyIdempotent | backend/controllers/portfolioController.js:106-113 | applying the same update body twice is applying it once |
| PortfolioModel.NewPortfolio | backend/controllers/portfolioController.js:65-68 | a created portfolio belongs to the body's `user` when it has one, otherwise to the requester; absent keys take the schema defaults (public, zero views, template "modern", theme "light") |
| PortfolioModel.MergeCustomization | backend/controllers/portfolioController.js:156-159 | each customization key is the patch's value when supplied and the stored one otherwise |
| ProjectModel.ApplyBody | backend/controllers/projectController.js:72-76 | an update keeps the project id, and an empty body changes nothing |
| ProjectModel.NewProject | backend/controllers/projectController.js:43-50 | a created project has the given id, owner, title, description, technologies and both links, no images, is not featured and has no dates |
| ProjectModel.DatesUnordered | backend/models/projectModel.js:31-32 | a project whose end date precedes its start date is still valid |
| ProjectModel.Valid | backend/models/projectModel.js:3-35 | the Project schema's checks: an owner, a title and a description; the dates are not checked against each other |
| PortfolioController.Save | backend/controllers/portfolioController.js:44-51 | a save succeeds exactly for a valid document and then replaces only that record |
| PortfolioController.GetPortfolio | backend/controllers/portfolioController.js:9-18 | succeeds exactly when the requester owns a portfolio and returns the first of theirs in store order, as `findOne` does; otherwise "Portfolio not found" |
| PortfolioController.GetPublicPortfolio | backend/controllers/portfolioController.js:23-52 | the username is looked up trimmed, as the schema's setter casts it; unknown user: empty payload; no portfolio: none, with exactly the user's projects; private: refused before counting; public: saved with views one higher and returned when it validates, otherwise refused by the schema (an empty enumerated value stored by an earlier update included) |
| PortfolioController.CreatePortfolio | backend/controllers/portfolioController.js:57-71 | a requester who owns a portfolio is refused; otherwise the new record is appended exactly when it validates, so an empty template or theme is refused |
| PortfolioController.UpdatePortfolio | backend/controllers/portfolioController.js:76-119 | an id found must belong to the requester; an unknown id falls back to the requester's own portfolio; supplied keys overwrite without validation; no record is ever created |
| PortfolioController.UpdateTheme | backend/controllers/portfolioController.js:124-143 | a missing theme is refused before the lookup, then a missing portfolio; otherwise it succeeds exactly when the record with the new theme validates, so an allowed theme repairs a record whose only fault was its theme; only the theme changes; errors are one of those three kinds |
| PortfolioController.UpdateCustomization | backend/controllers/portfolioController.js:148-163 | no portfolio: "Portfolio not found"; otherwise it succeeds exactly when the record with the merged customization validates (an empty layout or spacing does not), and then only the customization changes, in place |
| PortfolioController.CustomizeTwice | backend/controllers/portfolioController.js:148-163 | sending the same customization update again changes nothing further and returns the same record |
| PortfolioController.SameOwnerKeepsOwnerLookup | backend/controllers/portfolioController.js:44-51 | replacing a portfolio by one with the same owner, as counting a view does, does not move any owner lookup |
| PortfolioController.CountedStaysPublic | backend/controllers/portfolioController.js:39-51 | after one counted read the portfolio is still the public one of that username, at the same place |
| PortfolioController.OnePublicRead | backend/controllers/portfolioController.js:39-51 | one read of a public, valid portfolio succeeds and adds exactly one view |
| PortfolioController.ReadsStep | backend/controllers/portfolioController.js:23-52 | a run of reads is its first read followed by the rest |
| PortfolioController.CountedTwice | backend/controllers/portfolioController.js:44-45 | one counted view followed by n - 1 more gives n |
| PortfolioController.FirstRead | backend/controllers/portfolioController.js:39-51 | n reads are one read then n - 1 reads from a store where the portfolio is still public and valid |
| PortfolioController.LaterReads | backend/controllers/portfolioController.js:39-51 | the reads after the first one each add one view |
| PortfolioController.PublicReadsCountViews | backend/controllers/portfolioController.js:39-51 | n reads of a public, valid portfolio all succeed, add exactly n views and change nothing else |
| PortfolioController.PrivateNeverCounted | backend/controllers/portfolioController.js:39-42 | a private portfolio is refused on every read, so its count never moves |
| PortfolioController.CreateOnce | backend/controllers/portfolioController.js:57-63 | after a successful create for the requester, every further create by them is refused with "Portfolio already exists" |
| PortfolioController.CreateBodyUserOverrides | backend/controllers/portfolioController.js:65-68 | a `user` key in the create body gives the record to that user, so the requester still owns none |
| PortfolioController.UpdateSkipsValidation | backend/controllers/portfolioController.js:106-113 | an update can store a theme outside the enumeration, which no save would accept |
| PortfolioController.EmptyLayoutRefused | backend/models/portfolioModel.js:242-246 | the enum validator refuses an empty layout, so the customization save fails |
| PortfolioController.EmptyThemeNotCreated | backend/models/portfolioModel.js:214-218 | a body with an empty theme never creates a portfolio |
| PortfolioController.ThemeRepairs | backend/controllers/portfolioController.js:124-143 | after the update path stored an out-of-enumeration theme, a theme update with an allowed value saves again |
| PortfolioController.UpdateTransfersOwnership | backend/controllers/portfolioController.js:100-113 | an update body naming another user hands the record to that user |
| ProjectController.Guard | backend/controllers/projectController.js:16-27 | an unknown id gives "Project not found"; another owner's project gives "Not authorized"; otherwise the project's index |
| ProjectController.Save | backend/controllers/projectController.js:126-127 | a save succeeds exactly when title, description and owner are present, then replaces only that record |
| ProjectController.GetProjects | backend/controllers/projectController.js:7-10 | the requester's projects in store order, each record as often as stored, and no project of another owner |
| ProjectController.GetProject | backend/controllers/projectController.js:15-30 | succeeds exactly when the guard passes, with the stored project of that id and owner; otherwise the guard's error |
| ProjectController.CreateProject | backend/controllers/projectController.js:35-53 | refused exactly when title or description is missing; on success the owner is the requester, title, description, technologies and both links are those sent, and the project is appended |
| ProjectController.UpdateProject | backend/controllers/projectController.js:58-79 | succeeds exactly when the guard passes; supplied keys overwrite in place and the id is kept |
| ProjectController.DeleteProject | backend/controllers/projectController.js:84-100 | succeeds exactly when the guard passes; that record is removed, the rest keep their order, and the id is echoed |
| ProjectController.UploadProjectImages | backend/controllers/projectController.js:105-130 | guard errors pass through; a missing or non-array body is refused; the images are appended after the existing ones; the save succeeds exactly when the stored project is valid, and otherwise fails with the schema's error |
| ProjectController.WithoutImage | backend/controllers/projectController.js:149-151 | the images whose id differs remain in their order, each as often as before, and none with that id |
| ProjectController.WithoutOnlyImage | backend/controllers/projectController.js:149-151 | when exactly one image has the id, the delete removes that position and keeps the rest as they were |
| ProjectController.DeleteProjectImage | backend/controllers/projectController.js:135-155 | guard errors pass through; otherwise only that project's images change, losing every image with that id; the save succeeds exactly when the stored project is valid, and otherwise fails with the schema's error |
| ProjectController.NonOwnerChangesNothing | backend/controllers/projectController.js:16-27 | every handler naming someone else's project fails with "Not authorized" and leaves the store as it was |
| ProjectController.CreateThenDelete | backend/controllers/projectController.js:43-50 | creating a project and deleting it by its new id gives back the original store |
| ProjectController.UploadThenDeleteImage | backend/controllers/projectController.js:126-151 | after an upload, deleting an id the old images lacked leaves the old images followed by the other new ones |
| ProjectController.DeleteAbsentImage | backend/controllers/projectController.js:149-151 | deleting an image id the project does not hold leaves its images unchanged |
| UserController.UserByEmailOrUsername | backend/controllers/userController.js:25-27 | the first user with the email or the username, in store order, or none exactly when no user has either |
| UserController.RegisterUser | backend/controllers/userController.js:16-62 | missing fields; then the duplicate lookup, with the username trimmed as the schema's setter casts it: "Email already exists" if the first match has the email, "Username already taken" otherwise; then the schema; success exactly when none refuses, appending the user with the trimmed username, so the unique indexes never fire, and returning a token |
| UserController.LoginUser | backend/controllers/userController.js:67-85 | succeeds exactly for a known email whose stored hash matches the password; an unknown email and a wrong password give the same "Invalid credentials" |
| UserController.ProfileOf | backend/controllers/userController.js:91 | the profile carries every field of the user except the password |
| UserController.GetMe | backend/controllers/userController.js:90-93 | the requester's profile without the password, or null exactly when no such user exists |
| UserController.SaveUser | backend/models/userModel.js:5-55 | a save succeeds exactly for a record meeting every schema constraint, then replaces only that record |
| UserController.ChangeUser | backend/controllers/userController.js:118-130 | an unknown requester gives "User not found"; otherwise the changed record is saved in place exactly when it validates |
| UserController.UpdateProfile | backend/controllers/userController.js:98-113 | name, bio and role are replaced by non-empty values and kept otherwise, nothing else changes, and the update succeeds exactly when the changed record validates (a bio over 500 characters is refused) |
| UserController.EmptyProfileUpdate | backend/controllers/userController.js:98-113 | an update with every field empty leaves a valid user and the store as they were |
| UserController.ProfileUpdateTwice | backend/controllers/userController.js:98-113 | sending the same profile update again changes nothing further and returns the same record |
| UserController.SameSkillsUpdate | backend/controllers/userController.js:152-164 | sending a valid user's own skill list back leaves the user and the store as they were |
| UserController.SkillsUpdateTwice | backend/controllers/userController.js:152-164 | sending the same skill list again changes nothing further and returns the same record |
| UserController.SameIdKeepsUserById | backend/controllers/userController.js:99 | replacing a user by a record with the same id moves no id lookup |
| UserController.UpdateAvatar | backend/controllers/userController.js:118-130 | only the avatar changes, and a valid user always succeeds |
| UserController.MergeLinks | backend/controllers/userController.js:140 | each social link is the patch's when supplied and the stored one otherwise |
| UserController.UpdateSocialLinks | backend/controllers/userController.js:135-147 | only the social links change, by a shallow merge, and a valid user always succeeds |
| UserController.UpdateSkills | backend/controllers/userController.js:152-164 | "User not found", or the save's error; otherwise it succeeds exactly when the user with the new list validates, and then only the skill list changes; any proficiency outside 1..5 fails, fractions within it pass |
| UserController.UploadResume | backend/controllers/userController.js:169-181 | only the resume link changes, and a valid user always succeeds |
| UserController.ResetPassword | backend/controllers/userController.js:186-246 | checks in order: both fields, the gmail suffix, length of at least 6, then "User not found with this email" for an unknown address; success replaces only that user's hash and returns their id; no proof of identity is required |
| UserController.RegisterKeepsUnique | backend/models/userModel.js:12 | a successful registration keeps ids, usernames and emails unique |
| UserController.PaddedUsernameIsTaken | backend/controllers/userController.js:25-35 | a taken username sent with a leading blank is trimmed before the lookup and refused with "Username already taken" |
| UserController.RegisterThenLogin | backend/controllers/userController.js:16-85 | a newly registered account signs in with its password and gets the registration's reply |
| UserController.ResetThenLogin | backend/controllers/userController.js:186-246 | after a reset, signing in with the new password succeeds as the reset user, whoever asked for the reset |
| RegisterPage.ValidateField | frontend/src/pages/Register.jsx:76-110 | an empty field shows no error; otherwise each field shows an error exactly when its rule fails, and the username's character check comes before its length check |
| RegisterPage.OnSubmit | frontend/src/pages/Register.jsx:133-164 | an incomplete form is refused; a request is sent exactly when every field is acceptable, without the confirmation; otherwise at least one error is shown |
| RegisterPage.DispatchedUsernameIsStored | frontend/src/pages/Register.jsx:156-163 | a body the form sends passes the server's field check, and its username is stored exactly as typed |
| RegisterPage.BareGmailIsSentButRefused | frontend/src/pages/Register.jsx:91-95 | the bare address "@gmail.com" passes the form but is refused by the server's email format |
| RegisterPage.BareGmailPassesForm | frontend/src/pages/Register.jsx:91-95 | a form with the bare address "@gmail.com" passes every client rule |
| RegisterPage.BareGmailIsNoAccountEmail | backend/models/userModel.js:22 | "@gmail.com" does not match the schema's email format |
| RegisterPage.StarterPortfolio | frontend/src/pages/Register.jsx:39-63 | the portfolio asked for after sign-up names no owner, so it goes to the requester, carries the account's address as contact email and is public |
| RegisterPage.StarterPortfolioAccepted | frontend/src/pages/Register.jsx:39-63 | for a requester without a portfolio, the server creates the starter portfolio exactly when the account's address matches the portfolio schema's contact-email pattern |
| LoginPage.SignIn | frontend/src/pages/Login.jsx:119-142 | a login request is sent exactly when both fields are filled and the address ends in "@gmail.com"; the page signs in exactly when the answer carries a username |
| LoginPage.ResetFlow | frontend/src/pages/Login.jsx:59-117 | the four checks run in order before anything is sent; a sign-in follows only a reset answer that names a user; success exactly when both requests succeed |
| LoginPage.BodyOf | frontend/src/pages/Login.jsx:85 | the page receives the response body on success and the error otherwise |
| LoginPage.ClientResetChecksCoverServer | frontend/src/pages/Login.jsx:63-81 | whatever the reset form sends passes the server's field, suffix and length checks |
| LoginPage.RegisteredUserSignsIn | frontend/src/pages/Login.jsx:119-142 | a newly registered gmail account signs in from the page |
| LoginPage.ResetSignsIn | frontend/src/pages/Login.jsx:59-117 | when the server resets a password, the page sends exactly the reset and then the sign-in, and ends signed in |
| PortfolioEditor.Flag | frontend/src/pages/PortfolioEditor.jsx:103-111 | a failed check adds exactly its field to the errors |
| PortfolioEditor.ValidateExperience | frontend/src/pages/PortfolioEditor.jsx:103-111 | each field is flagged exactly when its rule fails, and no other field is |
| PortfolioEditor.ValidateCertification | frontend/src/pages/PortfolioEditor.jsx:113-122 | each field is flagged exactly when its rule fails, and no other field is |
| PortfolioEditor.ValidateContact | frontend/src/pages/PortfolioEditor.jsx:124-132 | each field is flagged exactly when its rule fails; the phone must be exactly ten digits when given |
| PortfolioEditor.CertificationCheckMatchesSchema | frontend/src/pages/PortfolioEditor.jsx:113-122 | the client accepts a certification exactly when the schema does |
| PortfolioEditor.ContactCheckMatchesSchema | frontend/src/pages/PortfolioEditor.jsx:124-132 | the client accepts a contact section exactly when the schema does |
| PortfolioEditor.Responsibilities | frontend/src/pages/PortfolioEditor.jsx:234 | every kept line is non-blank and holds no line break |
| PortfolioEditor.Technologies | frontend/src/pages/PortfolioEditor.jsx:235 | every kept item is non-empty and trimmed |
| PortfolioEditor.ToExperience | frontend/src/pages/PortfolioEditor.jsx:236-241 | the entry keeps the draft's fields and holds the parsed lists |
| PortfolioEditor.AddExperience | frontend/src/pages/PortfolioEditor.jsx:226-261 | an invalid draft changes nothing and shows its errors; a valid one is appended and the inputs are cleared |
| PortfolioEditor.AddCertification | frontend/src/pages/PortfolioEditor.jsx:271-295 | an invalid draft changes nothing and shows its errors; a valid one is appended and the inputs are cleared |
| PortfolioEditor.RemoveExperience | frontend/src/pages/PortfolioEditor.jsx:263-269 | the entry at that index goes and the others keep their order; an index outside the list changes nothing |
| PortfolioEditor.RemoveCertification | frontend/src/pages/PortfolioEditor.jsx:297-303 | the entry at that index goes and the others keep their order; an index outside the list changes nothing |
| PortfolioEditor.AcceptedExperienceIsValid | frontend/src/pages/PortfolioEditor.jsx:103-111 | an entry the client accepts also passes the schema, provided its location is at most 100 characters |
| PortfolioEditor.ValidExperiencePasses | frontend/src/pages/PortfolioEditor.jsx:103-111 | an entry the schema accepts also passes the client check |
| PortfolioEditor.LongLocationSlipsThrough | frontend/src/pages/PortfolioEditor.jsx:103-111 | a 101-character location passes the client check and fails the schema |
| PortfolioEditor.AddThenRemoveExperience | frontend/src/pages/PortfolioEditor.jsx:226-269 | removing the entry just added gives the form back |
| PortfolioEditor.AddThenRemoveCertification | frontend/src/pages/PortfolioEditor.jsx:271-303 | removing the certification just added gives the form back |
| PortfolioEditor.TechnologiesRoundTrip | frontend/src/pages/PortfolioEditor.jsx:235 | items joined with ", " are read back as the same items |
| PortfolioEditor.ResponsibilitiesRoundTrip | frontend/src/pages/PortfolioEditor.jsx:234 | lines joined with line breaks are read back as the same lines |
| PortfolioEditor.HandleSkillsChange | frontend/src/pages/PortfolioEditor.jsx:200-208 | only the skills change, and the list is never empty |
| PortfolioEditor.SkillsRoundTrip | frontend/src/pages/PortfolioEditor.jsx:517 | reading back the skills shown as `join(', ')` gives the same form |
| PortfolioEditor.ClearedSkillsInput | frontend/src/pages/PortfolioEditor.jsx:205 | clearing the input leaves one empty skill, not an empty list |
| Text.Or | frontend/src/pages/PortfolioEditor.jsx:314-354 | an empty value takes the fallback, and any other value is kept |
| PortfolioEditor.FilledBackground | frontend/src/pages/PortfolioEditor.jsx:152-163 | every string key of the background falls back to its default when empty |
| PortfolioEditor.Hydrate | frontend/src/pages/PortfolioEditor.jsx:144-175 | the loaded portfolio's sections are taken over; an empty title, theme or template keeps the form's value; a missing overlay becomes on, and a missing opacity becomes 0.5 |
| PortfolioEditor.OpacityOr | frontend/src/pages/PortfolioEditor.jsx:332 | an absent or zero opacity becomes 0.5 |
| PortfolioEditor.SavePayload | frontend/src/pages/PortfolioEditor.jsx:314-354 | the payload never sets owner, views, testimonials or domain; the overlay is always on; empty title, email, theme and template get their fallbacks |
| PortfolioEditor.HydrateThenSave | frontend/src/pages/PortfolioEditor.jsx:144-354 | loading a fully set portfolio and saving it at once stores it unchanged |
| PortfolioEditor.SaveForcesOverlay | frontend/src/pages/PortfolioEditor.jsx:331-332 | a stored overlay that is off, or an opacity of zero, does not survive a load and save |
| PortfolioEditor.HandleTemplateSelect | frontend/src/pages/PortfolioEditor.jsx:380-392 | the template's hero keys and customization replace the form's, the call-to-action link stays, and the template id is recorded |
| PortfolioEditor.PickedTemplateSaves | frontend/src/pages/PortfolioEditor.jsx:380-392 | picking any gallery template and saving sends a template, customization and background the schema accepts |
| TemplateSelector.HighlightCount | frontend/src/components/TemplateSelector.jsx:255-257 | no card is highlighted exactly when no template has the current id |
| TemplateSelector.OnClick | frontend/src/components/TemplateSelector.jsx:259 | a click hands the template's defaults and id to the editor |
| TemplateSelector.GalleryMatchesSchema | frontend/src/components/TemplateSelector.jsx:3-246 | the gallery's ids are exactly the schema's template enumeration, in order |
| TemplateSelector.DefaultsPassSchema | frontend/src/components/TemplateSelector.jsx:3-246 | every template's layout equals its id, and its customization and background pass the schema |
| TemplateSelector.OneHighlight | frontend/src/components/TemplateSelector.jsx:255-257 | exactly one card is highlighted when the current template is in the gallery, and none otherwise |
| ProjectSlice.Reduce | frontend/src/features/projects/projectSlice.js:69-118 | loading exactly on pending; only fulfilled actions touch the list; fulfilled sets success and keeps the error flag, rejected sets the error and keeps the success flag |
| ProjectSlice.ResetIsInitial | frontend/src/features/projects/projectSlice.js:71 | reset returns the initial state: no projects, no flags, no message |
| ProjectSlice.PendingOnlyLoads | frontend/src/features/projects/projectSlice.js:75-103 | a pending action changes only the loading flag |
| ProjectSlice.RejectedKeepsList | frontend/src/features/projects/projectSlice.js:83-116 | a rejection keeps the list and records the error and its message |
| ProjectSlice.CreatedAppends | frontend/src/features/projects/projectSlice.js:91-95 | a created project goes last, after the earlier ones in order |
| ProjectSlice.DeletedDropsId | frontend/src/features/projects/projectSlice.js:104-111 | a delete drops every project with that id and keeps every other in its order and multiplicity |
| ProjectSlice.CreateThenDeleteRestores | frontend/src/features/projects/projectSlice.js:91-111 | creating a new id and deleting it restores the list |
| ProjectSlice.OnlyFulfilledChangesList | frontend/src/features/projects/projectSlice.js:73-117 | any run of pending and rejected actions leaves the list as it was |
| ProjectSlice.FetchMirrors | frontend/src/features/projects/projectSlice.js:78-82 | after a fetch the list is exactly the requester's projects on the server |
| ProjectSlice.CreateMirrors | frontend/src/features/projects/projectSlice.js:91-95 | a list mirroring the server still mirrors it after an accepted create |
| ProjectSlice.OnlyOneWithId | frontend/src/features/projects/projectSlice.js:107-109 | with unique ids, the delete filter drops exactly one project |
| ProjectSlice.DeleteMirrorsAt | frontend/src/features/projects/projectSlice.js:104-111 | removing the one record with that id on the server matches the client's filter |
| ProjectSlice.DeleteMirrors | frontend/src/features/projects/projectSlice.js:104-111 | with unique ids, a list mirroring the server still mirrors it after an accepted delete |
| PortfolioSlice.Reduce | frontend/src/features/portfolio/portfolioSlice.js:68-120 | loading exactly on pending; fulfilled stores the payload and sets success; rejected records the message; only those and a refused fetch move the portfolio |
| PortfolioSlice.ResetKeepsPortfolio | frontend/src/features/portfolio/portfolioSlice.js:70-75 | reset clears flags and message but keeps the portfolio, so it differs from the initial state whenever a portfolio is held |
| PortfolioSlice.PendingOnlyLoads | frontend/src/features/portfolio/portfolioSlice.js:79-108 | a pending action changes only the loading flag |
| PortfolioSlice.RejectedFetchClears | frontend/src/features/portfolio/portfolioSlice.js:87-118 | a refused fetch drops the portfolio; a refused create or update keeps it |
| PortfolioSlice.OthersKeepPortfolio | frontend/src/features/portfolio/portfolioSlice.js:77-119 | any run of actions other than fulfilled ones and refused fetches keeps the portfolio |
| PortfolioSlice.FetchAction | frontend/src/features/portfolio/portfolioService.js:7-18 | a found portfolio is fulfilled with it; "not found" is fulfilled with null; any other error is a rejection with the server's message |
| PortfolioSlice.FetchMirrors | frontend/src/features/portfolio/portfolioSlice.js:82-86 | after a fetch the client holds a portfolio exactly when the requester owns one, and it is theirs |
| Seqs.FindFirst | backend/controllers/userController.js:71 | the first index that passes, or none exactly when no element passes |
| Seqs.FilterMembers | backend/controllers/projectController.js:8 | a filter returns only elements of the input, and every passing element |
| Seqs.FilterInOrder | backend/controllers/projectController.js:8 | a filter keeps the passing elements in their original order |
| Seqs.FilterCounts | backend/controllers/projectController.js:8 | a filter keeps each passing element as often as the input holds it, and no failing element |
| Seqs.FilterAppend | frontend/src/features/projects/projectSlice.js:94-109 | filtering an appended list is filtering each part |
| Seqs.FilterKeepsAll | frontend/src/features/projects/projectSlice.js:107-109 | when every element passes, the filter returns the list unchanged |
| Seqs.FilterWithoutOne | frontend/src/features/projects/projectSlice.js:107-109 | dropping the one failing element by filter equals removing its index before filtering |
| Text.Trim | backend/models/userModel.js:13 | the trimmed string has no white space at either end, and a string with no white space is unchanged |
| Text.TrimIsSlice | backend/models/userModel.js:13 | the trim is a slice of the string with only white space cut away before and after it |
| Text.TrimEmptyIffBlank | frontend/src/pages/PortfolioEditor.jsx:234 | a string trims to nothing exactly when it is all white space |
| Text.TrimDropsLeadingSpace | backend/models/userModel.js:13 | a blank before a trimmed word does not survive the trim |
| Text.Split | frontend/src/pages/PortfolioEditor.jsx:205 | a split always has at least one piece, and no piece holds the separator |
| Text.JoinSplit | frontend/src/pages/PortfolioEditor.jsx:234 | splitting and re-joining with the same separator gives the text back |
| Text.SplitJoin | frontend/src/pages/PortfolioEditor.jsx:234 | joining pieces free of the separator and splitting again gives the pieces back |
| Text.SplitTrim | frontend/src/pages/PortfolioEditor.jsx:205 | one trimmed item per piece of the split |
| Text.SplitTrimJoin | frontend/src/pages/PortfolioEditor.jsx:205 | a list shown with ", " and read back with split and trim is the list itself |

## Left out

- Routing, middleware and authentication are not modelled. The requester's id is a parameter. The route order in backend/routes/portfolioRoutes.js:25-28, where `PUT /:id` shadows `/theme` and `/customization`, is not modelled.
- The handlers that backend/routes/portfolioRoutes.js:8-10 names but portfolioController.js does not define are left out, as are the review routes and handlers.
- HTTP status codes are not modelled; an error keeps its kind and message. The catch-all of portfolioController.js:114-118 becomes the error the update returns.
- Password hashing, hash comparison and token signing (userController.js:7-11, 39-40, 73) are parameters. So is URL parsing, because those are foreign library calls.
- Date parsing is not modelled: dates are day stamps. `overlayOpacity` is a `real` that is only compared and defaulted, never computed with.
- Skill proficiencies and testimonial ratings are reals, so 2.5 is representable. Floating-point rounding, `NaN` and the infinities are not modelled.
- The unique indexes of the User schema are not a branch of `UserController.RegisterUser`. Its contract proves that a new record collides with no stored one, so the indexes could refuse only under concurrent requests, which are not modelled.
- JavaScript `.length` counts UTF-16 code units, while the model counts characters. The two differ only for characters outside the Basic Multilingual Plane.
- Store behaviour that is not modelled:
  - Mongoose casting, `populate`, timestamps and sub-document ids: an id is whatever the caller supplies.
  - Concurrent requests.
  - The partial-default behaviour of nested objects when a body supplies a section: a supplied section replaces the whole section.
- The "Invalid user data" branch (userController.js:58-61) is left out, because `User.create` either returns a user or throws.
- `isValidPhone` (PortfolioEditor.jsx:100) is never called, so it is not modelled.
- Parts of the editor that are not modelled:
  - the per-keystroke contact re-validation in `handleContactChange` (PortfolioEditor.jsx:305-308), which calls the modelled `ValidateContact`;
  - toasts, navigation, scrolling and the preview.
- Of the effect that runs after sign-up (Register.jsx:34-73), only the starter portfolio it asks for is modelled (`RegisterPage.StarterPortfolio`). The toasts, the navigation to the dashboard and the `reset()` of the auth state are not, and neither is the keystroke handler.
- The auth slice and the `reset()` dispatch of Login.jsx:84 are not part of this model.
- The services (portfolioService.js, projectService.js) are modelled only as far as `PortfolioSlice.FetchAction` needs: the null returned for a 404. The update-or-create fallback of portfolioService.js:35-44 is left out.
- The `typeof isPublic === 'boolean'` guards of the editor (PortfolioEditor.jsx:171, 352) always hold, because `isPublic` is a `bool` in the model.
- PortfolioEditor.Hydrate: an empty hero key in the stored portfolio counts as absent, so the form keeps its own value. In the source, a stored `""` would be spread over the form's value.
- ProjectModel.ApplyBody: states only that the id is kept and that an empty body changes nothing. The per-key merge is written in its body, and `UpdateProject`'s contract uses it.
- PortfolioEditor.Responsibilities and PortfolioEditor.Technologies: do not state membership. Their round-trip lemmas state what the parse reads back.
