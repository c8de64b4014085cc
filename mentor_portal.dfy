/** The mentor portal's controller: five pages, the signed-in mentor (the
    server's summary plus the token) kept in a field and in browser storage,
    the mentor's meetings, and the meeting being viewed. Every request is
    a parameter: the server's answer or the failure. */
module MentorPortal {
  import opened Common
  import opened Strings
  import opened MeetingModel
  import MentorModel
  import MentorRoutes

  datatype MentorPage = Login | Register | Dashboard | Profile | MeetingDetails

  /** The signed-in mentor as the portal keeps it. */
  datatype Session = Session(mentor: MentorRoutes.MentorSummary, token: string)

  /** The student a meeting was booked by, as the server fills it in. */
  datatype Student = Student(id: string, fullName: string, email: string)

  /** A meeting as the portal receives it. */
  datatype PortalMeeting = PortalMeeting(
    id: string,
    student: Student,
    mentorId: string,
    date: int,
    timeSlot: string,
    status: Status,
    topic: string,
    notes: Option<string>,
    meetingLink: Option<string>)

  /** What browser storage holds under the mentor key: nothing, text that
      does not parse, the text `null` (which parses, to null), or a session. */
  datatype Stored = Empty | Garbled | NullText | Saved(session: Session)

  /** The answer to a login or registration request: a non-2xx reply with
      its message (absent when the body has none), a failure before any
      reply, or the token and mentor summary. */
  datatype AuthOutcome =
    | Rejected(message: Option<string>)
    | Unreachable(reason: string)
    | Accepted(token: string, mentor: MentorRoutes.MentorSummary)

  const MeetingsLoadFailed: string := "Failed to load meetings. Please try again."
  const AuthenticationRequired: string := "Authentication required"
  const StatusUpdateFailed: string := "Failed to update meeting status"
  const LoginRejected: string := "Login failed"
  const LoginUnreachable: string := "Login failed. Please check your credentials."
  const RegistrationRejected: string := "Registration failed"
  const RegistrationUnreachable: string := "Registration failed. Please try again."

  /** The error shown for a failed login or registration: the server's
      message when it sent a non-empty one, else the reason the request
      failed when that is non-empty, else the given fallback text. */
  function AuthError(outcome: AuthOutcome, rejected: string, unreachable: string): (e: string)
    requires !outcome.Accepted?
    ensures outcome.Rejected? && outcome.message.Some? && outcome.message.value != "" ==> e == outcome.message.value
    ensures outcome.Rejected? && (outcome.message.None? || outcome.message.value == "") ==> e == rejected
    ensures outcome.Unreachable? ==> e == (if outcome.reason != "" then outcome.reason else unreachable)
  {
    match outcome
    case Rejected(message) => if message.Some? && message.value != "" then message.value else rejected
    case Unreachable(reason) => if reason != "" then reason else unreachable
  }

  /** The portal's view of the server's login reply. */
  function OutcomeOfReply(reply: MentorRoutes.Reply): AuthOutcome {
    match reply
    case Authenticated(token, mentor) => Accepted(token, mentor)
    case Failure(_, message) => Rejected(Some(message))
    case _ => Rejected(None)
  }

  /** The portal signs a mentor in exactly when the server's login route
      authenticates them, and then with the server's token and summary. */
  lemma PortalLoginFollowsServer(mentors: seq<MentorModel.Mentor>, email: string, password: string,
                                 compare: (string, string) -> bool, sign: string -> string)
    ensures var reply := MentorRoutes.Login(mentors, email, password, compare, sign);
      && (OutcomeOfReply(reply).Accepted? <==> reply.Authenticated?)
      && (reply.Authenticated? ==> OutcomeOfReply(reply) == Accepted(reply.token, reply.mentor))
      && (reply.Failure? ==> AuthError(OutcomeOfReply(reply), LoginRejected, LoginUnreachable) == reply.message)
  {
  }

  /** The Authorization header sent with a token. */
  function AuthorizationHeader(token: string): string {
    "Bearer " + token
  }

  /** The header the portal sends is one the server's guard accepts: it
      yields back exactly the token, whenever the token is non-empty and has
      no spaces (as signed tokens do). */
  lemma AuthorizationHeaderAccepted(token: string)
    requires token != "" && ' ' !in token
    ensures MentorRoutes.BearerToken(Some(AuthorizationHeader(token))) == Some(token)
  {
    assert AuthorizationHeader(token) == "Bearer" + " " + token + "";
    MentorRoutes.BearerTokenOfForm(AuthorizationHeader(token), "Bearer", token, "");
  }

  /** The token a meetings request uses: the one passed when it is
      non-empty, else the signed-in mentor's; with neither, the text
      "undefined" is what the template literal produces. */
  function MeetingsToken(token: string, session: Option<Session>): string {
    if token != "" then token else if session.Some? then session.value.token else "undefined"
  }

  /** The list with the status of every meeting whose id is `id` replaced,
      and every other meeting left as it was. */
  function SetStatusById(meetings: seq<PortalMeeting>, id: string, status: Status): (r: seq<PortalMeeting>)
    ensures |r| == |meetings|
    ensures forall k :: 0 <= k < |r| && meetings[k].id == id ==> r[k] == meetings[k].(status := status)
    ensures forall k :: 0 <= k < |r| && meetings[k].id != id ==> r[k] == meetings[k]
  {
    if meetings == [] then []
    else
      var head := if meetings[0].id == id then meetings[0].(status := status) else meetings[0];
      [head] + SetStatusById(meetings[1..], id, status)
  }

  /** Setting a status twice is setting it once, with the second value. */
  lemma SetStatusByIdLastWins(meetings: seq<PortalMeeting>, id: string, s1: Status, s2: Status)
    ensures SetStatusById(SetStatusById(meetings, id, s1), id, s2) == SetStatusById(meetings, id, s2)
  {
    var once := SetStatusById(meetings, id, s2);
    var twice := SetStatusById(SetStatusById(meetings, id, s1), id, s2);
    assert forall k :: 0 <= k < |once| ==> twice[k] == once[k];
  }

  /** A meeting whose status already is the new one, or an id no meeting
      has, leaves the list as it was. */
  lemma SetStatusByIdUnchanged(meetings: seq<PortalMeeting>, id: string, status: Status)
    requires forall k :: 0 <= k < |meetings| && meetings[k].id == id ==> meetings[k].status == status
    ensures SetStatusById(meetings, id, status) == meetings
  {
    var r := SetStatusById(meetings, id, status);
    assert forall k :: 0 <= k < |r| ==> r[k] == meetings[k];
  }

  /** Updates of two different meetings can be applied in either order. */
  lemma SetStatusByIdCommutes(meetings: seq<PortalMeeting>, a: string, sa: Status, b: string, sb: Status)
    requires a != b
    ensures SetStatusById(SetStatusById(meetings, a, sa), b, sb) == SetStatusById(SetStatusById(meetings, b, sb), a, sa)
  {
    var x := SetStatusById(meetings, a, sa);
    var y := SetStatusById(meetings, b, sb);
    var ab := SetStatusById(x, b, sb);
    var ba := SetStatusById(y, a, sa);
    forall k | 0 <= k < |ab|
      ensures ab[k] == ba[k]
    {
      var m := meetings[k];
      if m.id == a {
        assert x[k] == m.(status := sa) && ab[k] == x[k];
        assert y[k] == m && ba[k] == m.(status := sa);
      } else if m.id == b {
        assert y[k] == m.(status := sb) && ba[k] == y[k];
        assert x[k] == m && ab[k] == m.(status := sb);
      } else {
        assert x[k] == m && ab[k] == m;
        assert y[k] == m && ba[k] == m;
      }
    }
  }

  /** The links between pages. */
  datatype Link = ToRegister | Back | ToProfile

  /** Where a link leads from a page, when the page offers it. */
  function Follow(p: MentorPage, link: Link): (r: Option<MentorPage>)
    ensures r.Some? && link == Back ==> r.value in {Login, Dashboard}
    ensures r.Some? ==> r.value != MeetingDetails
    ensures p == Login ==> (r.Some? <==> link == ToRegister)
    ensures r == Some(Register) <==> p == Login && link == ToRegister
    ensures r == Some(Login) <==> p == Register && link == Back
    ensures r == Some(Profile) <==> p == Dashboard && link == ToProfile
    ensures r == Some(Dashboard) <==> p in {Profile, MeetingDetails} && link == Back
  {
    match (p, link)
    case (Login, ToRegister) => Some(Register)
    case (Register, Back) => Some(Login)
    case (Dashboard, ToProfile) => Some(Profile)
    case (Profile, Back) => Some(Dashboard)
    case (MeetingDetails, Back) => Some(Dashboard)
    case _ => None
  }

  /** Going forward to registration or to the profile and then back returns
      to the page left. */
  lemma BackUndoesForward(p: MentorPage, link: Link)
    requires link != Back && Follow(p, link).Some?
    ensures Follow(Follow(p, link).value, Back) == Some(p)
  {
  }

  /** The portal controller. */
  class MentorApp {
    var currentPage: MentorPage
    var session: Option<Session>
    var meetings: seq<PortalMeeting>
    var selectedMeeting: Option<PortalMeeting>
    var loading: bool
    var error: Option<string>
    var stored: Stored

    /** The current page is drawn: the dashboard and the profile only with a
        signed-in mentor, the details only with a selected meeting. When this
        fails the portal shows a blank screen and offers no control. */
    predicate Showing()
      reads this
    {
      match currentPage
      case Login => true
      case Register => true
      case Dashboard => session.Some?
      case Profile => session.Some?
      case MeetingDetails => selectedMeeting.Some?
    }

    /** The portal opens on the login page with nothing loaded; storage is
        whatever an earlier visit left. */
    constructor (stored: Stored)
      ensures currentPage == Login && session.None? && meetings == [] && selectedMeeting.None?
      ensures !loading && error.None? && this.stored == stored
    {
      currentPage := Login;
      session := None;
      meetings := [];
      selectedMeeting := None;
      loading := false;
      error := None;
      this.stored := stored;
    }

    /** Requests the meetings of `mentorId` and applies the answer
        (`response` is None when the request or its decoding fails).
        Returns the token the request carried. */
    method FetchMeetings(mentorId: string, token: string, response: Option<seq<PortalMeeting>>)
      returns (sent: string)
      modifies this
      ensures sent == MeetingsToken(token, old(session))
      ensures !loading
      ensures response.Some? ==> meetings == response.value && error.None?
      ensures response.None? ==> meetings == old(meetings) && error == Some(MeetingsLoadFailed)
      ensures currentPage == old(currentPage) && session == old(session)
      ensures selectedMeeting == old(selectedMeeting) && stored == old(stored)
    {
      sent := MeetingsToken(token, session);
      loading := true;
      error := None;
      if response.Some? {
        meetings := response.value;
      } else {
        error := Some(MeetingsLoadFailed);
      }
      loading := false;
    }

    /** On opening: a saved session is taken back, the dashboard shown and
        the meetings requested with its token; storage that cannot be read is
        cleared; empty storage changes nothing. A stored `null` is taken back
        as no mentor and the dashboard is chosen before reading its id throws;
        the handler then clears storage, and the dashboard, having no mentor,
        is not drawn: the screen stays blank. */
    method Restore(response: Option<seq<PortalMeeting>>)
      modifies this
      ensures old(stored).Saved? ==>
        && session == Some(old(stored).session) && currentPage == Dashboard
        && stored == old(stored) && !loading
        && (response.Some? ==> meetings == response.value && error.None?)
        && (response.None? ==> meetings == old(meetings) && error == Some(MeetingsLoadFailed))
      ensures old(stored).Saved? ==> Showing()
      ensures old(stored).NullText? ==>
        && session.None? && currentPage == Dashboard && stored == Empty
        && meetings == old(meetings) && error == old(error) && loading == old(loading)
        && !Showing()
      ensures old(stored).Garbled? ==>
        && stored == Empty && session == old(session) && currentPage == old(currentPage)
        && meetings == old(meetings) && error == old(error) && loading == old(loading)
      ensures old(stored).Empty? ==>
        && stored == Empty && session == old(session) && currentPage == old(currentPage)
        && meetings == old(meetings) && error == old(error) && loading == old(loading)
      ensures selectedMeeting == old(selectedMeeting)
    {
      match stored {
        case Empty =>
        case Garbled =>
          stored := Empty;
        case NullText =>
          session := None;
          currentPage := Dashboard;
          stored := Empty;
        case Saved(s) =>
          session := Some(s);
          currentPage := Dashboard;
          var _ := FetchMeetings(s.mentor.id, s.token, response);
      }
    }

    /** A login or registration answer applied: on acceptance the mentor
        and token become the session, are saved, the meetings are requested
        and the dashboard shown; otherwise the error is set and neither the
        page nor the session changes. */
    method Authenticate(outcome: AuthOutcome, rejected: string, unreachable: string,
                        response: Option<seq<PortalMeeting>>)
      modifies this
      ensures !loading
      ensures outcome.Accepted? ==>
        var s := Session(outcome.mentor, outcome.token);
        && session == Some(s) && stored == Saved(s) && currentPage == Dashboard
        && (response.Some? ==> meetings == response.value && error.None?)
        && (response.None? ==> meetings == old(meetings) && error == Some(MeetingsLoadFailed))
      ensures !outcome.Accepted? ==>
        && error == Some(AuthError(outcome, rejected, unreachable))
        && session == old(session) && stored == old(stored) && currentPage == old(currentPage)
        && meetings == old(meetings)
      ensures selectedMeeting == old(selectedMeeting)
    {
      loading := true;
      error := None;
      if outcome.Accepted? {
        var s := Session(outcome.mentor, outcome.token);
        session := Some(s);
        stored := Saved(s);
        var _ := FetchMeetings(s.mentor.id, s.token, response);
        currentPage := Dashboard;
      } else {
        error := Some(AuthError(outcome, rejected, unreachable));
      }
      loading := false;
    }

    /** Submitting the login form. */
    method SubmitLogin(outcome: AuthOutcome, response: Option<seq<PortalMeeting>>)
      modifies this
      ensures !loading
      ensures outcome.Accepted? ==>
        && session == Some(Session(outcome.mentor, outcome.token))
        && stored == Saved(Session(outcome.mentor, outcome.token)) && currentPage == Dashboard
      ensures !outcome.Accepted? ==>
        && error == Some(AuthError(outcome, LoginRejected, LoginUnreachable))
        && session == old(session) && stored == old(stored) && currentPage == old(currentPage)
        && meetings == old(meetings)
      ensures selectedMeeting == old(selectedMeeting)
    {
      Authenticate(outcome, LoginRejected, LoginUnreachable, response);
    }

    /** Submitting the registration form. */
    method SubmitRegistration(outcome: AuthOutcome, response: Option<seq<PortalMeeting>>)
      modifies this
      ensures !loading
      ensures outcome.Accepted? ==>
        && session == Some(Session(outcome.mentor, outcome.token))
        && stored == Saved(Session(outcome.mentor, outcome.token)) && currentPage == Dashboard
      ensures !outcome.Accepted? ==>
        && error == Some(AuthError(outcome, RegistrationRejected, RegistrationUnreachable))
        && session == old(session) && stored == old(stored) && currentPage == old(currentPage)
        && meetings == old(meetings)
      ensures selectedMeeting == old(selectedMeeting)
    {
      Authenticate(outcome, RegistrationRejected, RegistrationUnreachable, response);
    }

    /** Refreshing from the dashboard: the request carries the session's token. */
    method RefreshMeetings(response: Option<seq<PortalMeeting>>) returns (sent: string)
      requires session.Some?
      modifies this
      ensures session.Some? && sent == MeetingsToken("", old(session))
      ensures response.Some? ==> meetings == response.value && error.None?
      ensures response.None? ==> meetings == old(meetings) && error == Some(MeetingsLoadFailed)
      ensures currentPage == old(currentPage) && session == old(session)
      ensures selectedMeeting == old(selectedMeeting) && stored == old(stored)
    {
      sent := FetchMeetings(session.value.mentor.id, "", response);
    }

    /** Signing out forgets the mentor and their meetings, clears storage
        and returns to the login page. */
    method LogOut()
      requires currentPage in {Dashboard, Profile} && Showing()
      modifies this
      ensures session.None? && meetings == [] && stored == Empty && currentPage == Login
      ensures selectedMeeting == old(selectedMeeting)
      ensures loading == old(loading) && error == old(error)
    {
      session := None;
      meetings := [];
      stored := Empty;
      currentPage := Login;
    }

    /** Opens a meeting's details. */
    method ViewMeeting(m: PortalMeeting)
      requires currentPage == Dashboard && Showing()
      modifies this
      ensures selectedMeeting == Some(m) && currentPage == MeetingDetails
      ensures session == old(session) && meetings == old(meetings) && stored == old(stored)
      ensures loading == old(loading) && error == old(error)
    {
      selectedMeeting := Some(m);
      currentPage := MeetingDetails;
    }

    /** Follows a link the current page offers; any other link does nothing. */
    method FollowLink(link: Link)
      requires Showing()
      modifies this
      ensures Follow(old(currentPage), link).Some? ==> currentPage == Follow(old(currentPage), link).value
      ensures Follow(old(currentPage), link).None? ==> currentPage == old(currentPage)
      ensures session == old(session) && meetings == old(meetings) && stored == old(stored)
      ensures selectedMeeting == old(selectedMeeting)
      ensures loading == old(loading) && error == old(error)
    {
      var target := Follow(currentPage, link);
      if target.Some? {
        currentPage := target.value;
      }
    }

    /** Changes a meeting's status: without a token nothing is requested;
        `accepted` is whether the server answered 2xx. Only on acceptance do
        the list and the meeting being viewed take the new status, exactly
        where the id matches. */
    method UpdateMeetingStatus(meetingId: string, status: Status, accepted: bool) returns (ok: bool)
      modifies this
      ensures old(session).None? || old(session).value.token == "" ==>
        !ok && error == Some(AuthenticationRequired)
      ensures ok <==> old(session).Some? && old(session).value.token != "" && accepted
      ensures old(session).Some? && old(session).value.token != "" && !accepted ==>
        error == Some(StatusUpdateFailed)
      ensures ok ==> meetings == SetStatusById(old(meetings), meetingId, status) && error == old(error)
      ensures !ok ==> meetings == old(meetings) && selectedMeeting == old(selectedMeeting)
      ensures ok && old(selectedMeeting).Some? && old(selectedMeeting).value.id == meetingId ==>
        selectedMeeting == Some(old(selectedMeeting).value.(status := status))
      ensures ok && !(old(selectedMeeting).Some? && old(selectedMeeting).value.id == meetingId) ==>
        selectedMeeting == old(selectedMeeting)
      ensures currentPage == old(currentPage) && session == old(session) && stored == old(stored)
      ensures loading == old(loading)
    {
      if session.None? || session.value.token == "" {
        error := Some(AuthenticationRequired);
        return false;
      }
      if !accepted {
        error := Some(StatusUpdateFailed);
        return false;
      }
      meetings := SetStatusById(meetings, meetingId, status);
      if selectedMeeting.Some? && selectedMeeting.value.id == meetingId {
        selectedMeeting := Some(selectedMeeting.value.(status := status));
      }
      return true;
    }
  }
}
