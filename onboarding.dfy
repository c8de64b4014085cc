/** The student side of the application shell: a page tag, the profile
    draft each onboarding step merges into, the registration request built
    from the draft, and the merges of the registration and login outcomes.
    Network calls are replaced by their outcomes, passed to the handlers. */
module Onboarding {
  import opened Common
  import opened Strings
  import opened UserModel
  import UserRoutes

  /** The page tags of the shell. */
  datatype Page =
    | Main | Auth | Login | Signup | Profile | ProfileSetup | EducationSetup
    | SkillsSetup | CareerGoals | Loading | Dashboard | Settings | InviteFriends
    | Help | MentorPortal

  datatype RegistrationStatus = Pending | Success | Error

  /** The profile draft. `profileImage` and a certificate's `file` stand for
      the selected files by name. */
  datatype ProfileDraft = ProfileDraft(
    fullName: string,
    email: string,
    age: string,
    profileImage: Option<string>,
    education: string,
    fieldOfStudy: string,
    institution: string,
    certificates: seq<Certificate>,
    technicalSkills: seq<Skill>,
    softSkills: seq<Skill>,
    desiredRoles: seq<string>,
    industryPreference: seq<string>,
    timeline: string,
    specificGoal: string,
    registrationStatus: RegistrationStatus,
    registrationError: string,
    id: string,
    password: string,
    token: string)

  /** The draft the shell starts with. */
  const InitialDraft: ProfileDraft := ProfileDraft(
    "Test User", "test@example.com", "25", None, "Bachelor", "Computer Science",
    "Test University", [], [], [], [], [], "", "", Pending, "", "", "", "")

  /** What the profile step hands over. */
  datatype ProfileSlice = ProfileSlice(fullName: string, email: string, age: string, profileImage: Option<string>)

  /** What the education step hands over. */
  datatype EducationSlice = EducationSlice(
    education: string, fieldOfStudy: string, institution: string, certificates: seq<Certificate>)

  /** What the skills step hands over. */
  datatype SkillsSlice = SkillsSlice(technicalSkills: seq<Skill>, softSkills: seq<Skill>)

  /** What the career-goals step hands over. */
  datatype GoalsSlice = GoalsSlice(
    desiredRoles: seq<string>, industryPreference: seq<string>, timeline: string, specificGoal: string)

  /** The profile step's shallow merge: its four fields are taken from the
      slice and every other field is kept. */
  function WithProfile(d: ProfileDraft, s: ProfileSlice): (r: ProfileDraft)
    ensures ProfileSlice(r.fullName, r.email, r.age, r.profileImage) == s
    ensures r.(fullName := d.fullName, email := d.email, age := d.age, profileImage := d.profileImage) == d
  {
    d.(fullName := s.fullName, email := s.email, age := s.age, profileImage := s.profileImage)
  }

  /** The education step's shallow merge. */
  function WithEducation(d: ProfileDraft, s: EducationSlice): (r: ProfileDraft)
    ensures EducationSlice(r.education, r.fieldOfStudy, r.institution, r.certificates) == s
    ensures r.(education := d.education, fieldOfStudy := d.fieldOfStudy,
               institution := d.institution, certificates := d.certificates) == d
  {
    d.(education := s.education, fieldOfStudy := s.fieldOfStudy,
       institution := s.institution, certificates := s.certificates)
  }

  /** The skills step's shallow merge. */
  function WithSkills(d: ProfileDraft, s: SkillsSlice): (r: ProfileDraft)
    ensures SkillsSlice(r.technicalSkills, r.softSkills) == s
    ensures r.(technicalSkills := d.technicalSkills, softSkills := d.softSkills) == d
  {
    d.(technicalSkills := s.technicalSkills, softSkills := s.softSkills)
  }

  /** The career-goals step's shallow merge. */
  function WithGoals(d: ProfileDraft, s: GoalsSlice): (r: ProfileDraft)
    ensures GoalsSlice(r.desiredRoles, r.industryPreference, r.timeline, r.specificGoal) == s
    ensures r.(desiredRoles := d.desiredRoles, industryPreference := d.industryPreference,
               timeline := d.timeline, specificGoal := d.specificGoal) == d
  {
    d.(desiredRoles := s.desiredRoles, industryPreference := s.industryPreference,
       timeline := s.timeline, specificGoal := s.specificGoal)
  }

  /** Steps touching disjoint fields commute: the order in which the
      education and skills steps are merged does not matter. */
  lemma EducationSkillsCommute(d: ProfileDraft, e: EducationSlice, s: SkillsSlice)
    ensures WithSkills(WithEducation(d, e), s) == WithEducation(WithSkills(d, s), e)
  {
  }

  /** The registration request: the fourteen profile fields of the draft. */
  function RegistrationRequest(d: ProfileDraft): (b: RegistrationBody)
    ensures b.fullName == d.fullName && b.email == d.email && b.password == d.password
    ensures b.certificates == d.certificates && b.industryPreference == d.industryPreference
  {
    RegistrationBody(d.fullName, d.email, d.password, d.age, d.education, d.fieldOfStudy,
                     d.institution, d.certificates, d.technicalSkills, d.softSkills,
                     d.desiredRoles, d.industryPreference, d.timeline, d.specificGoal)
  }

  /** The request never depends on the client-only fields: the id, token,
      registration status and error, and the profile image. */
  lemma RequestIgnoresClientFields(d: ProfileDraft, id: string, token: string,
                                   status: RegistrationStatus, error: string, image: Option<string>)
    ensures RegistrationRequest(d.(id := id, token := token, registrationStatus := status,
                                   registrationError := error, profileImage := image))
            == RegistrationRequest(d)
  {
  }

  /** The user object of a login response. A field the stored document lacks
      is absent (`None`); the password has been removed by the server. */
  datatype LoginUser = LoginUser(
    id: Option<string>,
    fullName: Option<string>,
    email: Option<string>,
    age: Option<string>,
    education: Option<string>,
    fieldOfStudy: Option<string>,
    institution: Option<string>,
    certificates: Option<seq<string>>,
    technicalSkills: Option<seq<Skill>>,
    softSkills: Option<seq<Skill>>,
    desiredRoles: Option<seq<string>>,
    industryPreference: Option<seq<string>>,
    timeline: Option<string>,
    specificGoal: Option<string>)

  /** Certificates as the server returns them: names without files. */
  function NamedCertificates(names: seq<string>): (cs: seq<Certificate>)
    ensures |cs| == |names|
    ensures forall k :: 0 <= k < |names| ==> cs[k] == Certificate(names[k], None)
  {
    seq(|names|, k requires 0 <= k < |names| => Certificate(names[k], None))
  }

  /** The login merge: fields the response user carries overwrite the
      draft, the token is added, a missing or empty id becomes '';
      a missing preference list becomes ['tech'] (an empty list is kept, since
      an array is truthy); the draft's password, image and registration
      status survive. */
  function MergeLogin(d: ProfileDraft, u: LoginUser, token: string): (r: ProfileDraft)
    ensures r.token == token
    ensures r.id == (if u.id.Some? then u.id.value else "")
    ensures u.industryPreference.None? ==> r.industryPreference == ["tech"]
    ensures u.industryPreference.Some? ==> r.industryPreference == u.industryPreference.value
    ensures r.password == d.password && r.profileImage == d.profileImage
    ensures r.registrationStatus == d.registrationStatus && r.registrationError == d.registrationError
    ensures SetOrKept(u.fullName, d.fullName, r.fullName)
    ensures SetOrKept(u.email, d.email, r.email)
    ensures SetOrKept(u.age, d.age, r.age)
    ensures SetOrKept(u.education, d.education, r.education)
    ensures SetOrKept(u.fieldOfStudy, d.fieldOfStudy, r.fieldOfStudy)
    ensures SetOrKept(u.institution, d.institution, r.institution)
    ensures SetOrKept(u.technicalSkills, d.technicalSkills, r.technicalSkills)
    ensures SetOrKept(u.softSkills, d.softSkills, r.softSkills)
    ensures SetOrKept(u.desiredRoles, d.desiredRoles, r.desiredRoles)
    ensures SetOrKept(u.timeline, d.timeline, r.timeline)
    ensures SetOrKept(u.specificGoal, d.specificGoal, r.specificGoal)
    ensures u.certificates.Some? ==> r.certificates == NamedCertificates(u.certificates.value)
    ensures u.certificates.None? ==> r.certificates == d.certificates
  {
    ProfileDraft(
      u.fullName.GetOr(d.fullName), u.email.GetOr(d.email), u.age.GetOr(d.age), d.profileImage,
      u.education.GetOr(d.education), u.fieldOfStudy.GetOr(d.fieldOfStudy),
      u.institution.GetOr(d.institution),
      if u.certificates.Some? then NamedCertificates(u.certificates.value) else d.certificates,
      u.technicalSkills.GetOr(d.technicalSkills), u.softSkills.GetOr(d.softSkills),
      u.desiredRoles.GetOr(d.desiredRoles),
      u.industryPreference.GetOr(["tech"]),
      u.timeline.GetOr(d.timeline), u.specificGoal.GetOr(d.specificGoal),
      d.registrationStatus, d.registrationError,
      if u.id.Some? then u.id.value else "",
      d.password, token)
  }

  /** The user object the server sends for a stored user. */
  function LoginUserOf(u: User): LoginUser {
    LoginUser(Some(u.id), Some(u.fullName), Some(u.email), Some(u.age), Some(u.education),
              Some(u.fieldOfStudy), Some(u.institution), Some(u.certificates),
              Some(u.technicalSkills), Some(u.softSkills), Some(u.desiredRoles),
              Some(u.industryPreference), Some(u.timeline), Some(u.specificGoal))
  }

  /** Registering a draft and then logging in gives the draft back, with the
      server's id and the new token, and with certificate files dropped: the
      profile survives the round trip through the back end. */
  lemma {:induction false} RegisterThenLoginRestoresDraft(d: ProfileDraft, id: string,
                                                          hash: string -> string, token: string)
    ensures
      var stored := UserRoutes.NewUser(id, RegistrationRequest(d), hash);
      MergeLogin(d, LoginUserOf(UserRoutes.StripPassword(stored)), token)
        == d.(id := id, token := token,
              certificates := NamedCertificates(CertificateNames(d.certificates)))
  {
    var stored := UserRoutes.NewUser(id, RegistrationRequest(d), hash);
    assert stored.certificates == CertificateNames(d.certificates);
  }

  /** Certificates keep their names and lose their files in the round trip. */
  lemma CertificatesRoundTrip(cs: seq<Certificate>)
    ensures |NamedCertificates(CertificateNames(cs))| == |cs|
    ensures forall k :: 0 <= k < |cs| ==>
      NamedCertificates(CertificateNames(cs))[k] == cs[k].(file := None)
  {
  }

  /** The dashboard greeting: the first space-separated word of the name,
      or "User" when that word is empty, that is when the name is empty or
      starts with a space. */
  function Greeting(fullName: string): (g: string)
    ensures g != "" && ' ' !in g
    ensures fullName == "" || fullName[0] == ' ' ==> g == "User"
    ensures !(fullName == "" || fullName[0] == ' ') ==>
      StartsWith(fullName, g) && (|g| == |fullName| || fullName[|g|] == ' ')
  {
    var first := Split(fullName, ' ')[0];
    if first == "" then "User" else first
  }

  /** The controls each rendered page offers for moving between pages. */
  datatype Nav =
    | Back | LoginClick | SignupClick | CreateAccount | GetStarted | OpenMentorPortal
    | Logout | ProfileLink(target: Page)

  /** The page that `p` renders as. Pages with no render branch of their own
      (settings, invite-friends, help) fall through to the landing page. */
  function Screen(p: Page): (s: Page)
    ensures s !in {Settings, InviteFriends, Help}
    ensures p in {Settings, InviteFriends, Help} ==> s == Main
    ensures !(p in {Settings, InviteFriends, Help}) ==> s == p
  {
    if p == Settings || p == InviteFriends || p == Help then Main else p
  }

  /** Where a navigation control leads, or `None` when the page does not
      render that control. */
  function NavTarget(p: Page, n: Nav): (r: Option<Page>)
    ensures n == Back && r.Some? ==> r.value in {Auth, ProfileSetup, EducationSetup, SkillsSetup}
    ensures r == Some(Auth) <==>
      (n == Back && Screen(p) in {Login, Signup}) || (n == GetStarted && Screen(p) == Main)
  {
    match (Screen(p), n)
    case (Auth, LoginClick) => Some(Login)
    case (Auth, SignupClick) => Some(Signup)
    case (Login, Back) => Some(Auth)
    case (Login, CreateAccount) => Some(Signup)
    case (Signup, Back) => Some(Auth)
    case (EducationSetup, Back) => Some(ProfileSetup)
    case (SkillsSetup, Back) => Some(EducationSetup)
    case (CareerGoals, Back) => Some(SkillsSetup)
    case (Profile, Logout) => Some(Main)
    case (Profile, ProfileLink(t)) =>
      if t in {ProfileSetup, Settings, InviteFriends, Help} then Some(t) else None
    case (Main, GetStarted) => Some(Auth)
    case (Main, OpenMentorPortal) => Some(MentorPortal)
    case _ => None
  }

  /** The page each onboarding handler moves to after its step. */
  function NextStep(p: Page): Option<Page> {
    match p
    case Signup => Some(ProfileSetup)
    case ProfileSetup => Some(EducationSetup)
    case EducationSetup => Some(SkillsSetup)
    case SkillsSetup => Some(CareerGoals)
    case CareerGoals => Some(Loading)
    case _ => None
  }

  /** Going back from a wizard page returns to the step that led to it, and
      going back from login or signup returns to the choice between them;
      the profile step offers no way back. */
  lemma BackUndoesNext(p: Page)
    ensures NextStep(p).Some? && NextStep(p).value in {EducationSetup, SkillsSetup, CareerGoals} ==>
      NavTarget(NextStep(p).value, Back) == Some(p)
    ensures NavTarget(ProfileSetup, Back).None?
    ensures NavTarget(NavTarget(Auth, LoginClick).value, Back) == Some(Auth)
    ensures NavTarget(NavTarget(Auth, SignupClick).value, Back) == Some(Auth)
  {
  }

  /** The shell: the current page and the profile draft. */
  class Shell {
    var currentPage: Page
    var profile: ProfileDraft

    constructor ()
      ensures currentPage == Main && profile == InitialDraft
    {
      currentPage := Main;
      profile := InitialDraft;
    }

    /** The logo leads to the dashboard when the draft has a name, otherwise to
        the sign-in choice. */
    method LogoClick()
      modifies this
      ensures profile == old(profile)
      ensures old(profile).fullName != "" <==> currentPage == Dashboard
      ensures old(profile).fullName == "" <==> currentPage == Auth
    {
      if profile.fullName != "" {
        currentPage := Dashboard;
      } else {
        currentPage := Auth;
      }
    }

    /** A navigation control of the rendered page; a control the page does
        not offer changes nothing. */
    method Navigate(n: Nav)
      modifies this
      ensures profile == old(profile)
      ensures NavTarget(old(currentPage), n).Some? ==> currentPage == NavTarget(old(currentPage), n).value
      ensures NavTarget(old(currentPage), n).None? ==> currentPage == old(currentPage)
    {
      var target := NavTarget(currentPage, n);
      if target.Some? {
        currentPage := target.value;
      }
    }

    /** Sign-up stores the username as the email, and the password, then opens
        the profile step. */
    method SignupDone(username: string, password: string)
      modifies this
      ensures profile == old(profile).(email := username, password := password)
      ensures currentPage == ProfileSetup
    {
      profile := profile.(email := username, password := password);
      currentPage := ProfileSetup;
    }

    method ProfileSetupDone(s: ProfileSlice)
      modifies this
      ensures profile == WithProfile(old(profile), s) && currentPage == EducationSetup
    {
      profile := WithProfile(profile, s);
      currentPage := EducationSetup;
    }

    method EducationSetupDone(s: EducationSlice)
      modifies this
      ensures profile == WithEducation(old(profile), s) && currentPage == SkillsSetup
    {
      profile := WithEducation(profile, s);
      currentPage := SkillsSetup;
    }

    method SkillsSetupDone(s: SkillsSlice)
      modifies this
      ensures profile == WithSkills(old(profile), s) && currentPage == CareerGoals
    {
      profile := WithSkills(profile, s);
      currentPage := CareerGoals;
    }

    /** The last step merges the goals, marks the registration pending, opens
        the loading page and returns the request to send. */
    method CareerGoalsDone(s: GoalsSlice) returns (request: RegistrationBody)
      modifies this
      ensures profile == WithGoals(old(profile), s).(registrationStatus := Pending)
      ensures currentPage == Loading
      ensures request == RegistrationRequest(profile)
    {
      profile := WithGoals(profile, s).(registrationStatus := Pending);
      currentPage := Loading;
      request := RegistrationRequest(profile);
    }

    /** A successful registration response: status, id and token are stored;
        the page is left alone. */
    method RegistrationSucceeded(id: string, token: string)
      modifies this
      ensures profile == old(profile).(registrationStatus := Success, id := id, token := token)
      ensures currentPage == old(currentPage)
    {
      profile := profile.(registrationStatus := Success, id := id, token := token);
    }

    /** A failed registration (an error status or a network error): the status
        and message are stored; the page is left alone. */
    method RegistrationFailed(message: string)
      modifies this
      ensures profile == old(profile).(registrationStatus := Error, registrationError := message)
      ensures currentPage == old(currentPage)
    {
      profile := profile.(registrationStatus := Error, registrationError := message);
    }

    /** The outcome of the login request: on success the user is merged in and
        the dashboard opens; on failure nothing changes (only an alert is shown). */
    method LoginOutcome(outcome: Option<(LoginUser, string)>)
      modifies this
      ensures outcome.Some? ==>
        profile == MergeLogin(old(profile), outcome.value.0, outcome.value.1) && currentPage == Dashboard
      ensures outcome.None? ==> profile == old(profile) && currentPage == old(currentPage)
    {
      if outcome.Some? {
        profile := MergeLogin(profile, outcome.value.0, outcome.value.1);
        currentPage := Dashboard;
      }
    }

    /** The loading page's completion opens the dashboard. */
    method LoadingComplete()
      modifies this
      ensures profile == old(profile) && currentPage == Dashboard
    {
      currentPage := Dashboard;
    }

    /** The greeting the dashboard is rendered with. */
    function DashboardGreeting(): string
      reads this
    {
      Greeting(profile.fullName)
    }
  }
}
