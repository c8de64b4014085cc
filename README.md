# Pathfinder in Dafny

Pathfinder is a mentoring application with two parts:

- **The student side.** A React shell (`App.tsx`) walks a new student through an onboarding wizard: sign-up, profile, education, skills and career goals. It registers the collected profile with the back end, logs the student in and shows a dashboard. On the dashboard the student can browse mentors and book meetings.
- **The mentor side.** A separate portal (`MentorApp.tsx`) lets a mentor sign in, list their meetings on a dashboard, and open one meeting to change its status or edit its notes.

Both sides talk to an Express back end that keeps users, mentors and meetings in MongoDB.

This project models the decision logic of that system and proves properties of it.

## How the model is organised

There is one module per source file.

**Back end.** The back-end models (`MeetingModel`, `MentorModel`, `UserModel`) give the records, schema validation and defaults. The route modules (`MentorRoutes`, `UserRoutes`) model each route as a function from the collection and the request to the reply. Their collections are classes (`MentorRoutes.MentorApi`, `UserRoutes.UserStore`) whose methods update the stored documents.

**Front end.** Each front-end page that updates its state handler by handler is a class, and its handlers are methods. These are:

- the onboarding shell `Onboarding.Shell`;
- the wizard forms;
- the student dashboard;
- the mentor portal controller;
- the meeting-details page.

Each method states the page's whole new state. The pure parts have their own functions, and those functions carry the lemmas:

- the draft merges, the registration request and the login merge;
- the mentor-list choice and the booking validation;
- the by-id status replacement;
- the meeting filter, grouping, sorting and statistics.

**Outside effects.** Network replies, `localStorage`, hashing (bcrypt), token signing and verification (JWT), dates and random link codes are all parameters: the outcome a handler receives, or an opaque function.

`Strings` and `Lists` state the JavaScript string and array built-ins the code relies on (`trim`, `split`, `includes`, `filter`, `flatMap`, `sort`), once each, with their properties.

The lemmas that connect the two sides are:

- `Onboarding.RegisterThenLoginRestoresDraft`: a registered draft comes back intact from a login.
- `MentorPortal.AuthorizationHeaderAccepted`: the header the portal sends is one the server's guard accepts.
- `MentorPortal.PortalLoginFollowsServer`: the portal signs in exactly when the server authenticates.
- `StudentDashboard.BookingAccepted`: every booking the dashboard sends passes the Meeting schema.

## Model

| member | source | states |
|---|---|---|
| MeetingModel.ParseStatus | Pathfinder-main/src/backend/models/Meeting.js:22-26 | a status string is accepted exactly when it is one of "scheduled", "completed", "cancelled", and the accepted status prints back as that string |
| MeetingModel.ParseStatusName | Pathfinder-main/src/backend/models/Meeting.js:22-26 | every status's stored spelling parses back to that status |
| MeetingModel.CreateMeeting | Pathfinder-main/src/backend/models/Meeting.js:3-41 | a meeting is saved exactly when userId, mentorId, date, timeSlot and topic are given and any given status is in the enum; the saved meeting carries the input's fields, notes and link, meets the schema, and has status "scheduled" when none was given |
| MentorModel.CreateMentor | Pathfinder-main/src/backend/models/Mentor.js:5-68 | a mentor is saved exactly when name, email and role are given and a password is given if the mentor is registered; the saved mentor meets the schema and carries the given id, name, email, role, company, bio, expertise, industries and availability; isRegistered defaults to false, imageUrl to the default picture; a given password is stored hashed and an absent or empty one as it came |
| MentorModel.PasswordRequiredIffRegistered | Pathfinder-main/src/backend/models/Mentor.js:15-24 | without a password, creation succeeds exactly when the mentor is not registered (isRegistered defaulting to false) |
| MentorModel.MatchPassword | Pathfinder-main/src/backend/models/Mentor.js:78-81 | the entered password matches exactly when a password is stored and the comparison accepts it; never when none is stored |
| MentorModel.PreSave | Pathfinder-main/src/backend/models/Mentor.js:58-68 | corrected pre-save hook: an unmodified password leaves the mentor unchanged; a modified non-empty one is replaced by its hash; no other field changes |
| MentorModel.PreSaveAsWritten | Pathfinder-main/src/backend/models/Mentor.js:58-68 | hook as written: any non-empty password is replaced by its hash whether or not it was modified; no other field changes |
| MentorModel.PreSaveAgreesWhenModified | Pathfinder-main/src/backend/models/Mentor.js:58-68 | the hook as written and the corrected hook agree whenever the password was modified |
| MentorModel.PreSaveAsWrittenRehashes | Pathfinder-main/src/backend/models/Mentor.js:59-61 | saving a registered mentor with an unmodified, already hashed password hashes the hash again as written, while the corrected hook leaves the mentor unchanged |
| UserModel.CertificateNames | Pathfinder-main/src/backend/models/User.js:9-11 | the stored certificates are the names of the submitted ones, one per certificate, in order |
| UserRoutes.StripPassword | Pathfinder-main/src/backend/routes/userRoutes.js:38-39 | a user handed out has no password and every other field as stored |
| UserRoutes.IndexOfEmail | Pathfinder-main/src/backend/routes/userRoutes.js:13-19 | finds the first user with the email, and reaches the end exactly when no user has it |
| UserRoutes.IndexOfId | Pathfinder-main/src/backend/routes/userRoutes.js:107-117 | finds the first user with the id, and reaches the end exactly when no user has it |
| UserRoutes.PlainPassword | Pathfinder-main/src/backend/routes/userRoutes.js:22-25 | the registered password is never empty: the given one, or "defaultpassword123" when none is given |
| UserRoutes.NewUser | Pathfinder-main/src/backend/routes/userRoutes.js:21-27 | the created user has the given id, email and name, the hash of the chosen password, and the certificate names |
| UserRoutes.Login | Pathfinder-main/src/backend/routes/userRoutes.js:54-91 | 404 exactly when no user has the email; 401 exactly when the first such user's password does not compare; otherwise logged in with that user, password removed, and a token signed for its id and email; no reply carries a password |
| UserRoutes.ListUsers | Pathfinder-main/src/backend/routes/userRoutes.js:94-104 | lists every user, in order, each with the password removed |
| UserRoutes.GetUser | Pathfinder-main/src/backend/routes/userRoutes.js:107-117 | 404 exactly when no user has the id; every other reply is the first user with that id, without password |
| UserRoutes.DiscardPassword | Pathfinder-main/src/backend/routes/userRoutes.js:123-125 | a non-empty password is removed from the update body, an empty one kept and an absent one stays absent; nothing else in the body changes |
| UserRoutes.Apply | Pathfinder-main/src/backend/routes/userRoutes.js:127-130 | the `$set`: each field the body gives replaces the stored one and each field it omits is kept, password included; the id never changes |
| UserRoutes.ApplyIdempotent | Pathfinder-main/src/backend/routes/userRoutes.js:127-130 | applying the same update twice gives the same user as applying it once |
| UserRoutes.PutKeepsPassword | Pathfinder-main/src/backend/routes/userRoutes.js:120-139 | an update that passes validation never changes the stored password |
| UserRoutes.RemoveKeepsUnique | Pathfinder-main/src/backend/routes/userRoutes.js:142-152 | deleting a user keeps the remaining emails and ids unique |
| UserRoutes.UserStore.constructor | Pathfinder-main/src/backend/models/User.js:13-50 | the collection starts empty and valid |
| UserRoutes.UserStore.Register | Pathfinder-main/src/backend/routes/userRoutes.js:8-51 | a taken email gives 400 and no change; a missing name or email gives 500 and no change; otherwise exactly the new user is appended and the reply carries it without password plus its token; emails and ids stay unique |
| UserRoutes.UserStore.Update | Pathfinder-main/src/backend/routes/userRoutes.js:120-139 | an invalid body gives 500, an unknown id 404, an email already used by another user 500 (the unique index), all with no change; otherwise the user is replaced by the update applied without password, keeps its stored password, and the reply is that user without it |
| UserRoutes.UserStore.Delete | Pathfinder-main/src/backend/routes/userRoutes.js:142-152 | an unknown id gives 404 and no change; otherwise exactly that user is removed and the others keep their order |
| UserRoutes.RegisterThenLogin | Pathfinder-main/src/backend/routes/userRoutes.js:8-91 | after registering a new email, logging in with the chosen password returns the new user without password and the same token |
| MentorRoutes.IndexOfMentorEmail | Pathfinder-main/src/backend/routes/mentorRoutes.js:13-18 | finds the first mentor with the email, and reaches the end exactly when none has it |
| MentorRoutes.IndexOfMentorId | Pathfinder-main/src/backend/routes/mentorRoutes.js:141-151 | finds the first mentor with the id, and reaches the end exactly when none has it |
| MentorRoutes.IndexOfMeeting | Pathfinder-main/src/backend/routes/mentorRoutes.js:202-206 | finds the first meeting with the id, and reaches the end exactly when none has it |
| MentorRoutes.Login | Pathfinder-main/src/backend/routes/mentorRoutes.js:46-90 | in order: 400 exactly when email or password is missing; 401 "not activated" exactly for an unregistered mentor; 401 "Invalid credentials" exactly for an unknown email or a wrong password; otherwise a token signed for the mentor and its summary, which has no password |
| MentorRoutes.Activate | Pathfinder-main/src/backend/routes/mentorRoutes.js:20-23 | registration sets isRegistered and the hashed password, changes nothing else, and keeps the schema valid |
| MentorRoutes.BearerToken | Pathfinder-main/src/backend/routes/mentorRoutes.js:96-107 | a token is found only in a header starting with "Bearer", and it is non-empty and has no space |
| MentorRoutes.BearerTokenIff | Pathfinder-main/src/backend/routes/mentorRoutes.js:96-102 | the token is found exactly in a header of the form scheme, space, token, then nothing or a space-led rest, with a "Bearer"-prefixed scheme, and it is the second space-separated word |
| MentorRoutes.FormOfBearerToken | Pathfinder-main/src/backend/routes/mentorRoutes.js:96-102 | a header that yields a token has the bearer form around that token |
| MentorRoutes.BearerTokenOfForm | Pathfinder-main/src/backend/routes/mentorRoutes.js:96-102 | a header of the bearer form yields exactly its token |
| MentorRoutes.Protect | Pathfinder-main/src/backend/routes/mentorRoutes.js:93-118 | access is denied exactly when no token is found or it does not verify; when granted, the request carries the mentor with the verified id, or none when no mentor has it |
| MentorRoutes.ApplyPatch | Pathfinder-main/src/backend/routes/mentorRoutes.js:214-220 | a given status must be in the enum and replaces the old one; notes and link are overwritten only when given; every other field is kept |
| MentorRoutes.ApplyPatchIdempotent | Pathfinder-main/src/backend/routes/mentorRoutes.js:214-220 | applying the same patch twice gives the same meeting as applying it once |
| MentorRoutes.MentorsByIndustry | Pathfinder-main/src/backend/routes/mentorRoutes.js:131-138 | every listed mentor has the industry tag |
| MentorRoutes.MentorsByIndustryMembers | Pathfinder-main/src/backend/routes/mentorRoutes.js:131-138 | a mentor is listed exactly when it is stored and has the tag |
| MentorRoutes.GetMentor | Pathfinder-main/src/backend/routes/mentorRoutes.js:141-151 | 404 exactly when no mentor has the id; when one has it, the reply is the first stored mentor with that id |
| MentorRoutes.Profile | Pathfinder-main/src/backend/routes/mentorRoutes.js:231-238 | 401 exactly when the guard denies; 500 when the guard grants but the token's mentor is gone; otherwise the reply is the mentor the guard found |
| MentorRoutes.MeetingsWhere | Pathfinder-main/src/backend/routes/mentorRoutes.js:176-197 | the selected meetings sorted by date ascending, a permutation of the filtered list |
| MentorRoutes.MeetingsWhereMembers | Pathfinder-main/src/backend/routes/mentorRoutes.js:176-197 | a meeting is listed exactly when it is stored and selected |
| MentorRoutes.MeetingsForUserSpec | Pathfinder-main/src/backend/routes/mentorRoutes.js:176-185 | a student's list is sorted by date and holds exactly that student's meetings |
| MentorRoutes.MeetingsForMentorSpec | Pathfinder-main/src/backend/routes/mentorRoutes.js:188-197 | a mentor's list is sorted by date and holds exactly that mentor's meetings |
| MentorRoutes.RegisterThenLogin | Pathfinder-main/src/backend/routes/mentorRoutes.js:10-90 | after a known mentor registers a password, logging in with it succeeds |
| MentorRoutes.MentorApi.constructor | Pathfinder-main/src/backend/models/Mentor.js:5-55 | the collections start empty and valid |
| MentorRoutes.MentorApi.Register | Pathfinder-main/src/backend/routes/mentorRoutes.js:10-43 | an unknown email gives 404 and no change; an empty password fails validation (500) with no change; otherwise exactly that mentor is activated and the reply is its token and summary |
| MentorRoutes.MentorApi.CreateMentor | Pathfinder-main/src/backend/routes/mentorRoutes.js:154-162 | the mentor is appended exactly when it validates and its email is new; otherwise 500 and no change |
| MentorRoutes.MentorApi.CreateMeeting | Pathfinder-main/src/backend/routes/mentorRoutes.js:165-173 | a meeting that validates is appended and returned with 201; otherwise 500 and no change |
| MentorRoutes.MentorApi.Patch | Pathfinder-main/src/backend/routes/mentorRoutes.js:200-228 | 401 when the guard denies, 404 for an unknown meeting, 500 when the token's mentor is gone, 401 when another mentor owns it, 500 when the patched status is outside the enum; for the owner with a valid patch the reply is the patched meeting and it replaces exactly the old one; every failure changes nothing |
| Onboarding.WithProfile | Pathfinder-main/src/App.tsx:240-251 | the profile step sets exactly its four fields and keeps every other field of the draft |
| Onboarding.WithEducation | Pathfinder-main/src/App.tsx:253-264 | the education step sets exactly its four fields and keeps every other field |
| Onboarding.WithSkills | Pathfinder-main/src/App.tsx:266-275 | the skills step sets exactly the two skill lists and keeps every other field |
| Onboarding.WithGoals | Pathfinder-main/src/App.tsx:277-292 | the goals step sets exactly its four fields and keeps every other field |
| Onboarding.EducationSkillsCommute | Pathfinder-main/src/App.tsx:253-275 | the education and skills merges touch disjoint fields, so their order does not matter |
| Onboarding.RegistrationRequest | Pathfinder-main/src/App.tsx:296-311 | the request carries the draft's name, email, password, certificates and industry preference |
| Onboarding.RequestIgnoresClientFields | Pathfinder-main/src/App.tsx:296-311 | the request does not depend on the draft's id, token, registration status, registration error or profile image |
| Onboarding.NamedCertificates | Pathfinder-main/src/App.tsx:367-381 | certificates returned by login become entries with their name and no file |
| Onboarding.MergeLogin | Pathfinder-main/src/App.tsx:367-381 | login stores the token, the user's id or "" when absent, its industry preference or ["tech"] when absent; every other profile field the user carries overwrites the draft's and an absent one is kept, certificates coming back as names without files; password, profile image and registration status are kept |
| Onboarding.RegisterThenLoginRestoresDraft | Pathfinder-main/src/App.tsx:296-381 | registering a draft and logging in as that user gives the draft back with the server's id, the new token and certificate files dropped |
| Onboarding.CertificatesRoundTrip | Pathfinder-main/src/App.tsx:367-381 | the certificates that come back from the server are the submitted ones, same count and order, without their files |
| Onboarding.Greeting | Pathfinder-main/src/App.tsx:528 | the greeting is the first space-separated word of the full name, or "User" when that word is empty; it is never empty and has no space |
| Onboarding.Screen | Pathfinder-main/src/App.tsx:441-553 | settings, invite-friends and help have no screen of their own and show the landing page; every other page shows itself |
| Onboarding.NavTarget | Pathfinder-main/src/App.tsx:451-508 | a back button leads only to the auth, profile-setup, education-setup or skills-setup page; the auth page is reached exactly by back from login or signup and by get-started on the landing page |
| Onboarding.BackUndoesNext | Pathfinder-main/src/App.tsx:485-505 | going back from the education, skills or goals step returns to the step before it, and back from login or signup returns to the auth page that led there; the profile step has no way back |
| Onboarding.Shell.constructor | Pathfinder-main/src/App.tsx:155-180 | the shell starts on the landing page with the initial draft |
| Onboarding.Shell.LogoClick | Pathfinder-main/src/App.tsx:207-215 | goes to the dashboard exactly when the full name is non-empty, otherwise to auth; the draft is unchanged |
| Onboarding.Shell.Navigate | Pathfinder-main/src/App.tsx:451-508 | follows the fixed navigation target when there is one, otherwise stays; the draft is unchanged |
| Onboarding.Shell.SignupDone | Pathfinder-main/src/App.tsx:228-238 | stores the username as email and the password, nothing else, and moves to profile setup |
| Onboarding.Shell.ProfileSetupDone | Pathfinder-main/src/App.tsx:240-251 | merges the profile slice and moves to education setup |
| Onboarding.Shell.EducationSetupDone | Pathfinder-main/src/App.tsx:253-264 | merges the education slice and moves to skills setup |
| Onboarding.Shell.SkillsSetupDone | Pathfinder-main/src/App.tsx:266-275 | merges the skills slice and moves to career goals |
| Onboarding.Shell.CareerGoalsDone | Pathfinder-main/src/App.tsx:277-311 | merges the goals, marks registration pending, moves to loading and sends the request built from the new draft |
| Onboarding.Shell.RegistrationSucceeded | Pathfinder-main/src/App.tsx:329-338 | sets status success and the server's id and token; nothing else, page unchanged |
| Onboarding.Shell.RegistrationFailed | Pathfinder-main/src/App.tsx:340-347 | sets status error and the message; nothing else, page unchanged |
| Onboarding.Shell.LoginOutcome | Pathfinder-main/src/App.tsx:351-386 | a successful login merges the user and token and goes to the dashboard; a failed one changes neither draft nor page |
| Onboarding.Shell.LoadingComplete | Pathfinder-main/src/App.tsx:389-393 | goes to the dashboard with the draft unchanged |
| SignupForm.CheckPasswords | Pathfinder-main/src/components/SignupPage.tsx:19-26 | sign-up proceeds exactly when password and confirmation agree, with the username and password; otherwise the error is "Passwords do not match" |
| SignupForm.ConfirmationNotForwarded | Pathfinder-main/src/components/SignupPage.tsx:25 | what is passed on does not depend on the confirmation |
| SignupForm.SignupPage.constructor | Pathfinder-main/src/components/SignupPage.tsx:12-15 | all three inputs and the error start empty |
| SignupForm.SignupPage.Edit | Pathfinder-main/src/components/SignupPage.tsx:71-120 | typing sets the three inputs and leaves the error as it is |
| SignupForm.SignupPage.Submit | Pathfinder-main/src/components/SignupPage.tsx:12-123 | while a `required` input is empty nothing is submitted and nothing changes; otherwise a mismatch sets the error and passes nothing on, and a match passes username and password on; an earlier error is never cleared |
| CareerGoalsForm.Toggle | Pathfinder-main/src/components/CareerGoalsPage.tsx:54-60 | toggling flips the membership of exactly that industry and keeps the list free of duplicates |
| CareerGoalsForm.ToggleTwiceAbsent | Pathfinder-main/src/components/CareerGoalsPage.tsx:54-60 | toggling an absent industry twice restores the list exactly |
| CareerGoalsForm.ToggleTwicePresent | Pathfinder-main/src/components/CareerGoalsPage.tsx:54-60 | toggling a present industry twice moves it to the end of the list |
| CareerGoalsForm.CareerGoalsPage.constructor | Pathfinder-main/src/components/CareerGoalsPage.tsx:15-19 | no roles, no industries, empty inputs |
| CareerGoalsForm.CareerGoalsPage.EditNewRole | Pathfinder-main/src/components/CareerGoalsPage.tsx:108 | sets the new-role input and nothing else |
| CareerGoalsForm.CareerGoalsPage.EditTimeline | Pathfinder-main/src/components/CareerGoalsPage.tsx:175 | sets the timeline and nothing else |
| CareerGoalsForm.CareerGoalsPage.EditSpecificGoal | Pathfinder-main/src/components/CareerGoalsPage.tsx:190 | sets the specific goal and nothing else |
| CareerGoalsForm.CareerGoalsPage.AddRole | Pathfinder-main/src/components/CareerGoalsPage.tsx:43-48 | a non-empty new role is appended and the input cleared; an empty or duplicate one changes nothing; roles stay free of duplicates |
| CareerGoalsForm.CareerGoalsPage.RemoveRole | Pathfinder-main/src/components/CareerGoalsPage.tsx:50-52 | removes exactly that role, keeping the others in order |
| CareerGoalsForm.CareerGoalsPage.ToggleIndustry | Pathfinder-main/src/components/CareerGoalsPage.tsx:54-60 | the industry list becomes its toggle and stays free of duplicates |
| CareerGoalsForm.CareerGoalsPage.Submit | Pathfinder-main/src/components/CareerGoalsPage.tsx:62-193 | passes the four fields on unchanged exactly when the `required` timeline and specific goal are both non-empty, otherwise nothing |
| EducationForm.NamedOnly | Pathfinder-main/src/components/EducationSetupPage.tsx:28-36 | every submitted certificate has a name that is not blank after trimming |
| EducationForm.NamedOnlyMembers | Pathfinder-main/src/components/EducationSetupPage.tsx:28-36 | a certificate is submitted exactly when it is in the list and its trimmed name is non-empty |
| EducationForm.NamedOnlyConcat | Pathfinder-main/src/components/EducationSetupPage.tsx:28-36 | the submitted certificates keep their original order |
| EducationForm.EducationSetupPage.constructor | Pathfinder-main/src/components/EducationSetupPage.tsx:25 | starts with one certificate with an empty name |
| EducationForm.EducationSetupPage.AddCertificate | Pathfinder-main/src/components/EducationSetupPage.tsx:38-40 | appends one blank certificate |
| EducationForm.EducationSetupPage.RemoveCertificate | Pathfinder-main/src/components/EducationSetupPage.tsx:42-45 | deletes exactly the entry at the index, keeping the rest in order |
| EducationForm.EducationSetupPage.ChangeName | Pathfinder-main/src/components/EducationSetupPage.tsx:47-51 | replaces only that entry's name, keeping its file and every other entry |
| EducationForm.EducationSetupPage.UploadFile | Pathfinder-main/src/components/EducationSetupPage.tsx:53-57 | replaces only that entry's file, keeping its name and every other entry |
| EducationForm.EducationSetupPage.Submit | Pathfinder-main/src/components/EducationSetupPage.tsx:28-146 | submits the three fields and the named certificates only, exactly when the `required` education level, field of study and institution are all non-empty, otherwise nothing |
| SkillsForm.RatingChoices | Pathfinder-main/src/components/SkillsSetupPage.tsx:52-53 | the selectable ratings are exactly the eleven integers 0 to 10 |
| SkillsForm.WithRating | Pathfinder-main/src/components/SkillsSetupPage.tsx:32-42 | only the rating at the index changes; the length, the names and the other entries are kept |
| SkillsForm.WithRatingInRange | Pathfinder-main/src/components/SkillsSetupPage.tsx:32-73 | choosing a selectable rating keeps every rating between 0 and 10 |
| SkillsForm.SkillsSetupPage.constructor | Pathfinder-main/src/components/SkillsSetupPage.tsx:20-30 | three technical and three soft skills, each rated 5 |
| SkillsForm.SkillsSetupPage.ChangeTechnicalSkill | Pathfinder-main/src/components/SkillsSetupPage.tsx:32-36 | changes one technical rating, keeps the soft skills and ratings in range |
| SkillsForm.SkillsSetupPage.ChangeSoftSkill | Pathfinder-main/src/components/SkillsSetupPage.tsx:38-42 | changes one soft rating, keeps the technical skills and ratings in range |
| SkillsForm.SkillsSetupPage.Submit | Pathfinder-main/src/components/SkillsSetupPage.tsx:44-50 | passes both lists on as they stand |
| StudentDashboard.MentorQueryFor | Pathfinder-main/src/components/DashboardPage.tsx:63-66 | mentors are requested by industry exactly when the first preference exists and is non-empty, and then by that industry |
| StudentDashboard.HttpErrorMessage | Pathfinder-main/src/components/DashboardPage.tsx:73 | the error message is "HTTP error! status: " followed by the decimal digits of the status, which denote the status |
| Strings.NatToStringValue | Pathfinder-main/src/components/DashboardPage.tsx:73 | the digits `String(status)` prints denote the status and have no leading zero |
| StudentDashboard.MentorLoad | Pathfinder-main/src/components/DashboardPage.tsx:70-105 | a non-empty first result is shown; a failed request is reported; an empty result falls back to all mentors, keeps the previous list if that is also empty, and reports a failed fallback |
| StudentDashboard.FallbackOnlyWhenEmpty | Pathfinder-main/src/components/DashboardPage.tsx:79-97 | the fallback request can matter only when the first result is an empty list |
| StudentDashboard.MentorsAfter | Pathfinder-main/src/components/DashboardPage.tsx:98-105 | a loaded list replaces the mentor list, a failure empties it, an empty fallback keeps the previous one |
| StudentDashboard.Booking | Pathfinder-main/src/components/DashboardPage.tsx:133-147 | a request is made exactly when mentor, date, slot, topic and user are all given; it is scheduled, for the selected mentor and user, in the chosen slot, with a Google Meet link |
| StudentDashboard.BookingAccepted | Pathfinder-main/src/components/DashboardPage.tsx:139-147 | every request the dashboard sends passes the back end's Meeting schema and creates a scheduled meeting with that mentor, user and slot |
| StudentDashboard.SlotLists | Pathfinder-main/src/components/DashboardPage.tsx:369-375 | one slot list per availability day, in order |
| StudentDashboard.OfferedSlotsMembers | Pathfinder-main/src/components/DashboardPage.tsx:369-375 | a slot is offered exactly when some availability day has it |
| StudentDashboard.OfferedSlotsCount | Pathfinder-main/src/components/DashboardPage.tsx:369-375 | the number of offered slots is the total over all days |
| StudentDashboard.DashboardPage.constructor | Pathfinder-main/src/components/DashboardPage.tsx:46-55 | empty lists, loading, no error, no selection, closed modal, empty booking form; the industry preference defaults to ["tech"] |
| StudentDashboard.DashboardPage.LoadMentors | Pathfinder-main/src/components/DashboardPage.tsx:58-107 | requests the chosen query, stops loading, and sets mentors and error from the load outcome, nothing else |
| StudentDashboard.DashboardPage.LoadMeetings | Pathfinder-main/src/components/DashboardPage.tsx:109-126 | meetings are requested exactly when there is a user id and replaced only by a successful reply |
| StudentDashboard.DashboardPage.ScheduleMeeting | Pathfinder-main/src/components/DashboardPage.tsx:128-131 | selects the mentor and opens the modal |
| StudentDashboard.DashboardPage.CloseModal | Pathfinder-main/src/components/DashboardPage.tsx:394 | closes the modal and changes nothing else |
| StudentDashboard.DashboardPage.EditBooking | Pathfinder-main/src/components/DashboardPage.tsx:353-384 | sets the date, slot and topic inputs and nothing else |
| StudentDashboard.DashboardPage.SubmitMeeting | Pathfinder-main/src/components/DashboardPage.tsx:133-175 | sends the validated request; a success appends exactly the returned meeting, closes the modal and clears the form; otherwise nothing changes |
| MentorPortal.AuthError | Pathfinder-main/src/mentor-portal/MentorApp.tsx:118-206 | a failed sign-in shows the server's message when it has one, otherwise the fixed message for a rejection or the error's own message for an unreachable server |
| MentorPortal.PortalLoginFollowsServer | Pathfinder-main/src/mentor-portal/MentorApp.tsx:118-161 | the portal signs in exactly when the login route authenticates, with the server's token and mentor, and otherwise shows the server's message |
| MentorPortal.AuthorizationHeaderAccepted | Pathfinder-main/src/mentor-portal/MentorApp.tsx:232 | the "Bearer" header the portal sends yields exactly its token at the server's guard |
| MentorPortal.SetStatusById | Pathfinder-main/src/mentor-portal/MentorApp.tsx:242-246 | exactly the meetings with the id get the new status; the length and every other meeting are kept |
| MentorPortal.SetStatusByIdLastWins | Pathfinder-main/src/mentor-portal/MentorApp.tsx:242-246 | of two updates to the same meeting the later one wins |
| MentorPortal.SetStatusByIdUnchanged | Pathfinder-main/src/mentor-portal/MentorApp.tsx:242-246 | setting a status a meeting already has changes nothing |
| MentorPortal.SetStatusByIdCommutes | Pathfinder-main/src/mentor-portal/MentorApp.tsx:242-246 | updates to different meetings can be applied in either order |
| MentorPortal.Follow | Pathfinder-main/src/mentor-portal/MentorApp.tsx:308-381 | register is reached exactly from login's register link, login exactly by back from register, the profile exactly from the dashboard's profile link, the dashboard exactly by back from the profile or the meeting details; no link leads to the meeting details |
| MentorPortal.BackUndoesForward | Pathfinder-main/src/mentor-portal/MentorApp.tsx:308-381 | going back from a page reached by a link returns to where the link was followed |
| MentorPortal.MentorApp.constructor | Pathfinder-main/src/mentor-portal/MentorApp.tsx:69-74 | starts on login with no mentor, no meetings, no selection, not loading, no error |
| MentorPortal.MentorApp.FetchMeetings | Pathfinder-main/src/mentor-portal/MentorApp.tsx:93-116 | sends the given token, else the session's, else "undefined"; a reply replaces the meetings and clears the error; a failure sets the fixed error and keeps them; loading ends |
| MentorPortal.MentorApp.Restore | Pathfinder-main/src/mentor-portal/MentorApp.tsx:78-91 | a saved session is restored onto the dashboard and its meetings fetched; a stored `null` leaves the dashboard chosen with no mentor, storage cleared and nothing drawn; an unreadable one is removed; no session changes nothing |
| MentorPortal.MentorApp.Authenticate | Pathfinder-main/src/mentor-portal/MentorApp.tsx:118-206 | an accepted sign-in stores and saves the session, shows the dashboard and loads the meetings; a refused one sets the error and changes neither page, session nor meetings; loading ends either way |
| MentorPortal.MentorApp.SubmitLogin | Pathfinder-main/src/mentor-portal/MentorApp.tsx:118-161 | success stores the session and shows the dashboard; failure sets the error and changes neither page nor session |
| MentorPortal.MentorApp.SubmitRegistration | Pathfinder-main/src/mentor-portal/MentorApp.tsx:163-206 | success stores the session and shows the dashboard; failure sets the registration error and changes neither page nor session |
| MentorPortal.MentorApp.RefreshMeetings | Pathfinder-main/src/mentor-portal/MentorApp.tsx:348 | refetches with the session's token and keeps page and session |
| MentorPortal.MentorApp.LogOut | Pathfinder-main/src/mentor-portal/MentorApp.tsx:208-214 | from the drawn dashboard or profile: clears the session, the meetings and the stored session and goes to login |
| MentorPortal.MentorApp.ViewMeeting | Pathfinder-main/src/mentor-portal/MentorApp.tsx:216-219 | from the drawn dashboard: selects the meeting and shows its details |
| MentorPortal.MentorApp.FollowLink | Pathfinder-main/src/mentor-portal/MentorApp.tsx:308-381 | on a drawn page: follows a link when it leads somewhere, otherwise stays |
| MentorPortal.MentorApp.UpdateMeetingStatus | Pathfinder-main/src/mentor-portal/MentorApp.tsx:221-263 | no token: "Authentication required" and false; server refusal: the fixed error and false; in both no meeting changes; success: true, exactly the matching meetings and a matching selected meeting get the status |
| MentorDashboardView.FilterMeetings | Pathfinder-main/src/mentor-portal/components/MentorDashboard.tsx:136-144 | never adds meetings, and every listed meeting matches the search and the status filter |
| MentorDashboardView.FilterMeetingsMembers | Pathfinder-main/src/mentor-portal/components/MentorDashboard.tsx:136-144 | a meeting is listed exactly when it matches both the search and the status filter |
| MentorDashboardView.EmptySearchShowsAll | Pathfinder-main/src/mentor-portal/components/MentorDashboard.tsx:136-144 | an empty search with the filter "all" lists every meeting, in order |
| MentorDashboardView.FilterMeetingsKeepsOrder | Pathfinder-main/src/mentor-portal/components/MentorDashboard.tsx:136 | filtering distributes over concatenation, so relative order is kept |
| MentorDashboardView.DayGroup | Pathfinder-main/src/mentor-portal/components/MentorDashboard.tsx:147-155 | a day's group holds only meetings of that day |
| MentorDashboardView.DayGroupSnoc | Pathfinder-main/src/mentor-portal/components/MentorDashboard.tsx:150-155 | pushing a meeting extends exactly its own day's group, at the end |
| MentorDashboardView.DayGroupMembers | Pathfinder-main/src/mentor-portal/components/MentorDashboard.tsx:147-155 | a meeting is in a day's group exactly when it is listed and falls on that day |
| MentorDashboardView.GroupByDay | Pathfinder-main/src/mentor-portal/components/MentorDashboard.tsx:147-155 | a day has a group exactly when some listed meeting falls on it, the group is that day's meetings in listed order, and the day keys are listed once each |
| MentorDashboardView.SortedDates | Pathfinder-main/src/mentor-portal/components/MentorDashboard.tsx:158-160 | the day keys in ascending date order, a permutation of the keys |
| MentorDashboardView.SortedDatesSameDays | Pathfinder-main/src/mentor-portal/components/MentorDashboard.tsx:158-160 | sorting neither adds nor loses a day and keeps the keys distinct |
| MentorDashboardView.Statistics | Pathfinder-main/src/mentor-portal/components/MentorDashboard.tsx:163-168 | total is the number of all meetings; upcoming is counted over all meetings, never more than total; today is the size of today's group among the listed meetings |
| MentorDashboardView.UpcomingMembers | Pathfinder-main/src/mentor-portal/components/MentorDashboard.tsx:165-167 | a meeting is upcoming exactly when it is dated after now and scheduled |
| MentorDashboardView.StatusColor | Pathfinder-main/src/mentor-portal/components/MentorDashboard.tsx:171-182 | blue, green and red for the three statuses, grey exactly for any other string |
| MentorDashboardView.StatusColorDistinct | Pathfinder-main/src/mentor-portal/components/MentorDashboard.tsx:171-182 | different statuses get different colours |
| MentorDashboardView.MentorDashboardPage.constructor | Pathfinder-main/src/mentor-portal/components/MentorDashboard.tsx:110-111 | an empty search and the filter "all" |
| MentorDashboardView.MentorDashboardPage.SetSearchTerm | Pathfinder-main/src/mentor-portal/components/MentorDashboard.tsx:372 | sets the search and keeps the filter |
| MentorDashboardView.MentorDashboardPage.SetStatusFilter | Pathfinder-main/src/mentor-portal/components/MentorDashboard.tsx:388 | sets the filter and keeps the search |
| MentorDashboardView.MentorDashboardPage.View | Pathfinder-main/src/mentor-portal/components/MentorDashboard.tsx:136-168 | the listed meetings, their day groups, the day keys in ascending order and once each, and the statistics, all for the current search and filter |
| MeetingDetailsView.OfferedTransitions | Pathfinder-main/src/mentor-portal/components/MeetingDetails.tsx:226-263 | no button offers the current status, and a completed meeting offers none |
| MeetingDetailsView.OfferedIffAllowed | Pathfinder-main/src/mentor-portal/components/MeetingDetails.tsx:226-263 | the buttons offer exactly: scheduled to completed or cancelled, and cancelled to scheduled |
| MeetingDetailsView.CancelThenReschedule | Pathfinder-main/src/mentor-portal/components/MeetingDetails.tsx:226-263 | a scheduled meeting can be cancelled and rescheduled; a completed one can never change |
| MeetingDetailsView.BadgeColor | Pathfinder-main/src/mentor-portal/components/MeetingDetails.tsx:73-84 | a meeting's badge is never the grey of an unknown status |
| MeetingDetailsView.MeetingDetailsPage.constructor | Pathfinder-main/src/mentor-portal/components/MeetingDetails.tsx:27-30 | the notes start as the meeting's notes, or empty; nothing is under way |
| MeetingDetailsView.MeetingDetailsPage.ReceiveMeeting | Pathfinder-main/src/mentor-portal/components/MeetingDetails.tsx:26-30 | a new version of the meeting replaces the old one while the notes editor keeps its text, since the notes are initialised only once |
| MeetingDetailsView.MeetingDetailsPage.StartEditing | Pathfinder-main/src/mentor-portal/components/MeetingDetails.tsx:186 | opens the notes editor and changes nothing else |
| MeetingDetailsView.MeetingDetailsPage.EditNotes | Pathfinder-main/src/mentor-portal/components/MeetingDetails.tsx:205 | typing sets the notes text and changes nothing else |
| MeetingDetailsView.MeetingDetailsPage.SaveNotes | Pathfinder-main/src/mentor-portal/components/MeetingDetails.tsx:39-56 | writes the edited text into the meeting's notes, leaves edit mode and ends saving |
| MeetingDetailsView.MeetingDetailsPage.UpdateStatus | Pathfinder-main/src/mentor-portal/components/MeetingDetails.tsx:58-71 | requests an allowed change for this meeting, and the buttons are enabled again afterwards whatever the answer |
| Strings.TrimEmptyIffBlank | Pathfinder-main/src/components/EducationSetupPage.tsx:30 | a name trims to empty exactly when it is whitespace only |
| Lists.SortBy | Pathfinder-main/src/backend/routes/mentorRoutes.js:180 | the result is sorted by the key and a permutation of the input |

## Left out

- Rendering, styling and animation are not modelled. This covers all JSX, motion variants, Tailwind classes and the presentation-only components. Only the values the pages compute are.
- The network, `localStorage`, JSON encoding, Express routing and Mongoose queries are not modelled. Each call's result is a parameter of the handler that receives it. `server.js` and `seedMentors.js` are not part of this model.
- bcrypt hashing and comparison, and JWT signing and verification (RFC 7519), are opaque function parameters. Neither their security nor token expiry is modelled.
- Dates are integer timestamps. `toLocaleDateString` is an abstract day-key function (`dayOf`). Parsing a day key back into a time is `timeOf`. An unparsable date giving `NaN` in the comparator is not modelled.
- The random meeting-link code is an input. Float ratings, `toFixed` and progress-bar percentages are not modelled.
- Timing is not modelled: the race between the loading page's timer and the registration request, stale replies arriving after navigation, and the notification and welcome timeouts. The outcome handlers are independent methods that may be called in any order.
- `Strings.ToLower` lower-cases ASCII letters only. JavaScript's full Unicode case mapping is not modelled.
- MeetingDetailsView.MeetingDetailsPage.SaveNotes: the page writes the notes into the meeting object it shares with the portal controller. The model keeps its own copy, so that aliasing is not captured.
- The shell's `handleLogin` in `App.tsx` is never wired to a page, so it is left out; `handleLogout`, wired to the profile page, is `NavTarget(Profile, Logout)`. The settings, invite-friends and help pages have no render branch; `Onboarding.Screen` records that they show the landing page.
- Onboarding.Shell.ProfileSetupDone: `ProfileSetupPage.tsx` only forwards its inputs, and `Onboarding.WithProfile` takes them as given. The browser's checks on that form are not modelled: the `required` full name, email and age, the email format and the age bounds.
- The back end's PATCH does not enforce the transition relation the meeting-details buttons offer, and booking does not check slot conflicts. The model states both routes as written and proves no such property.
- Mongoose cast errors for malformed ids, `populate` of user and mentor references, and the difference between an absent body field and an empty one are not modelled. Absent and empty are both "not given", as JavaScript's truthiness treats them.
- EducationForm.EducationSetupPage.ChangeName, EducationForm.EducationSetupPage.UploadFile, SkillsForm.SkillsSetupPage.ChangeTechnicalSkill and SkillsForm.SkillsSetupPage.ChangeSoftSkill require an index in range. The pages only call them with the index of a rendered entry.
- MeetingDetailsView.MeetingDetailsPage.UpdateStatus requires the button to be enabled and offered. MeetingDetailsView.MeetingDetailsPage.SaveNotes and EditNotes require the editor to be open. Those are the only states in which the page renders the buttons.
- MentorPortal.MentorApp.UpdateMeetingStatus takes the server's answer as a boolean. It does not re-read the updated meeting the server returns.
- The `rating` and other display-only mentor fields are carried in the mentor record but not otherwise used.

## Findings

| source | as written | input that shows it | evidently intended | confidence | as-written member | corrected member |
|---|---|---|---|---|---|---|
| Pathfinder-main/src/backend/models/Mentor.js:58-68 | when the password is not modified the hook calls `next()` but does not return, so it goes on to hash the stored password again | saving a registered mentor whose stored password is the hash "$2a$10$h" without changing it stores the hash of that hash, and the mentor can no longer log in | an unmodified password is left alone | high, not executed | MentorModel.PreSaveAsWritten, MentorModel.PreSaveAsWrittenRehashes | MentorModel.PreSave |
