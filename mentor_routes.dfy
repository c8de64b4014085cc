/** The mentor and meeting routes of the back end: mentor registration and
    login, the `protect` guard over a bearer token, the mentor and meeting
    listings, creation, and the PATCH of a meeting by its owning mentor.
    Hashing, comparison, token signing and token verification are opaque
    functions passed in. */
module MentorRoutes {
  import opened Common
  import opened Strings
  import opened Lists
  import opened MeetingModel
  import opened MentorModel

  const MissingCredentials: string := "Please provide an email and password"
  const InvalidCredentials: string := "Invalid credentials"
  const NotActivated: string := "Mentor account not activated. Please register first."
  const NotAuthorizedRoute: string := "Not authorized to access this route"
  const NotAuthorizedMeeting: string := "Not authorized to update this meeting"

  /** The mentor fields an authentication reply carries. */
  datatype MentorSummary = MentorSummary(
    id: string, name: string, email: string, role: string,
    company: Option<string>, imageUrl: string)

  function Summary(m: Mentor): MentorSummary {
    MentorSummary(m.id, m.name, m.email, m.role, m.company, m.imageUrl)
  }

  /** What a route sends back. `Failure` carries the HTTP status and message. */
  datatype Reply =
    | Authenticated(token: string, mentor: MentorSummary)
    | MentorDoc(doc: Mentor)
    | CreatedMentor(created: Mentor)
    | CreatedMeeting(meeting: Meeting)
    | MeetingDoc(updated: Meeting)
    | Failure(status: nat, message: string)
  {
    /** The HTTP status of the reply. */
    function Status(): nat {
      match this
      case CreatedMentor(_) => 201
      case CreatedMeeting(_) => 201
      case Failure(status, _) => status
      case _ => 200
    }
  }

  /** The position of the first mentor with this email, or |mentors|. */
  function IndexOfMentorEmail(mentors: seq<Mentor>, email: string): (i: nat)
    ensures i <= |mentors|
    ensures i < |mentors| ==> mentors[i].email == email
    ensures i == |mentors| <==> forall k :: 0 <= k < |mentors| ==> mentors[k].email != email
  {
    FirstIndex(mentors, (m: Mentor) => m.email == email)
  }

  /** The position of the first mentor with this id, or |mentors|. */
  function IndexOfMentorId(mentors: seq<Mentor>, id: string): (i: nat)
    ensures i <= |mentors|
    ensures i < |mentors| ==> mentors[i].id == id
    ensures i == |mentors| <==> forall k :: 0 <= k < |mentors| ==> mentors[k].id != id
  {
    FirstIndex(mentors, (m: Mentor) => m.id == id)
  }

  /** The position of the first meeting with this id, or |meetings|. */
  function IndexOfMeeting(meetings: seq<Meeting>, id: string): (i: nat)
    ensures i <= |meetings|
    ensures i < |meetings| ==> meetings[i].id == id
    ensures i == |meetings| <==> forall k :: 0 <= k < |meetings| ==> meetings[k].id != id
  {
    FirstIndex(meetings, (m: Meeting) => m.id == id)
  }

  /** POST /mentors/login. The checks run in order and the first failure
      decides: missing email or password (400), unknown email (401), a mentor
      not yet registered (401, not activated), a password that does not match
      (401); otherwise a token signed over the mentor's id and the summary. */
  function Login(mentors: seq<Mentor>, email: string, password: string,
                 compare: (string, string) -> bool, sign: string -> string): (r: Reply)
    ensures r.Authenticated? || r == Failure(400, MissingCredentials)
            || r == Failure(401, InvalidCredentials) || r == Failure(401, NotActivated)
    ensures r == Failure(400, MissingCredentials) <==> email == "" || password == ""
    ensures var i := IndexOfMentorEmail(mentors, email);
      r == Failure(401, NotActivated) <==>
        email != "" && password != "" && i < |mentors| && !mentors[i].isRegistered
    ensures var i := IndexOfMentorEmail(mentors, email);
      r == Failure(401, InvalidCredentials) <==>
        && email != "" && password != ""
        && (i == |mentors| || (mentors[i].isRegistered && !MatchPassword(mentors[i], password, compare)))
    ensures var i := IndexOfMentorEmail(mentors, email);
      r.Authenticated? ==>
        && i < |mentors| && mentors[i].isRegistered && MatchPassword(mentors[i], password, compare)
        && r == Authenticated(sign(mentors[i].id), Summary(mentors[i]))
  {
    if email == "" || password == "" then Failure(400, MissingCredentials)
    else
      var i := IndexOfMentorEmail(mentors, email);
      if i == |mentors| then Failure(401, InvalidCredentials)
      else if !mentors[i].isRegistered then Failure(401, NotActivated)
      else if !MatchPassword(mentors[i], password, compare) then Failure(401, InvalidCredentials)
      else Authenticated(sign(mentors[i].id), Summary(mentors[i]))
  }

  /** What registration writes into an existing mentor before saving: the
      password (hashed by the pre-save hook) and `isRegistered`, whatever the
      mentor's previous state. */
  function Activate(m: Mentor, password: string, hash: string -> string): (r: Mentor)
    requires password != ""
    ensures r.isRegistered && r.password == Some(hash(password))
    ensures r.(password := m.password, isRegistered := m.isRegistered) == m
    ensures MentorModel.SchemaValid(m) ==> MentorModel.SchemaValid(r)
  {
    PreSave(m.(password := Some(password), isRegistered := true), true, hash)
  }

  /** The `Authorization` header loosely read as in section 2.1 of RFC 6750:
      the header must start with "Bearer" (case-sensitive, with no space
      required after it), and the token is the second space-separated piece,
      which must be non-empty. */
  function BearerToken(authorization: Option<string>): (t: Option<string>)
    ensures t.Some? ==> authorization.Some? && StartsWith(authorization.value, "Bearer")
    ensures t.Some? ==> t.value != "" && ' ' !in t.value
  {
    if authorization.None? || !StartsWith(authorization.value, "Bearer") then None
    else
      var pieces := Split(authorization.value, ' ');
      if |pieces| < 2 || pieces[1] == "" then None else Some(pieces[1])
  }

  /** `header` is a first word starting with "Bearer", one space, the token,
      and then nothing or more text after another space. */
  predicate BearerForm(header: string, scheme: string, token: string, rest: string) {
    && header == scheme + " " + token + rest
    && StartsWith(scheme, "Bearer") && ' ' !in scheme
    && token != "" && ' ' !in token
    && (rest == "" || rest[0] == ' ')
  }

  /** The token is found exactly in headers of the bearer form, and it is the
      word after the first space. */
  lemma BearerTokenIff(header: string, token: string)
    ensures BearerToken(Some(header)) == Some(token) <==>
            exists scheme, rest :: BearerForm(header, scheme, token, rest)
  {
    if exists scheme, rest :: BearerForm(header, scheme, token, rest) {
      var scheme, rest :| BearerForm(header, scheme, token, rest);
      BearerTokenOfForm(header, scheme, token, rest);
    }
    if BearerToken(Some(header)) == Some(token) {
      var scheme, rest := FormOfBearerToken(header, token);
    }
  }

  /** The converse direction: a header yielding a token has the bearer form. */
  lemma FormOfBearerToken(header: string, token: string) returns (scheme: string, rest: string)
    requires BearerToken(Some(header)) == Some(token)
    ensures BearerForm(header, scheme, token, rest)
  {
    assert Split(header, ' ')[1] == token;
    var i, j := SecondPiece(header, ' ');
    scheme := header[..i];
    SchemeOfHeader(header);
    rest := header[i + 1 + j..];
    assert header == scheme + [header[i]] + header[i + 1..i + 1 + j] + rest;
  }

  /** The first word of a header starting with "Bearer" starts with "Bearer". */
  lemma SchemeOfHeader(header: string)
    requires StartsWith(header, "Bearer") && IndexOf(header, ' ') < |header|
    ensures StartsWith(header[..IndexOf(header, ' ')], "Bearer")
  {
    var i := IndexOf(header, ' ');
    assert forall k :: 0 <= k < 6 ==> header[k] == "Bearer"[k];
    assert header[i] == ' ';
    assert i >= 6;
    assert header[..i][..6] == header[..6];
  }

  lemma BearerTokenOfForm(header: string, scheme: string, token: string, rest: string)
    requires BearerForm(header, scheme, token, rest)
    ensures BearerToken(Some(header)) == Some(token)
  {
    BearerFormStartsWith(header, scheme, token, rest);
    BearerFormPieces(header, scheme, token, rest);
  }

  lemma BearerFormStartsWith(header: string, scheme: string, token: string, rest: string)
    requires BearerForm(header, scheme, token, rest)
    ensures StartsWith(header, "Bearer")
  {
    assert header[..|scheme|] == scheme;
    assert header[..6] == scheme[..6];
  }

  lemma BearerFormPieces(header: string, scheme: string, token: string, rest: string)
    requires BearerForm(header, scheme, token, rest)
    ensures |Split(header, ' ')| >= 2 && Split(header, ' ')[1] == token
  {
    assert header == scheme + [' '] + (token + rest);
    SplitCons(scheme, token + rest, ' ');
    if rest == "" {
      assert token + rest == token;
      SplitNoSep(token, ' ');
    } else {
      assert token + rest == token + [' '] + rest[1..];
      SplitCons(token, rest[1..], ' ');
    }
  }

  /** The outcome of the `protect` middleware. */
  datatype Guard = Denied | Authorized(mentor: Option<Mentor>)

  /** `protect`: no bearer token, or a token `verify` rejects, is denied (401);
      otherwise the mentor with the decoded id is looked up, and may be missing. */
  function Protect(mentors: seq<Mentor>, authorization: Option<string>,
                   verify: string -> Option<string>): (g: Guard)
    ensures g.Denied? <==>
      BearerToken(authorization).None? || verify(BearerToken(authorization).value).None?
    ensures g.Authorized? ==>
      var id := verify(BearerToken(authorization).value).value;
      && (g.mentor.None? <==> forall k :: 0 <= k < |mentors| ==> mentors[k].id != id)
      && (g.mentor.Some? ==> g.mentor.value.id == id && g.mentor.value in mentors)
  {
    var token := BearerToken(authorization);
    if token.None? then Denied
    else
      var decoded := verify(token.value);
      if decoded.None? then Denied
      else
        var i := IndexOfMentorId(mentors, decoded.value);
        Authorized(if i == |mentors| then None else Some(mentors[i]))
  }

  /** The body of a PATCH; a field that is absent or empty is not applied. */
  datatype PatchBody = PatchBody(status: Option<string>, notes: Option<string>, meetingLink: Option<string>)

  /** The PATCH merge followed by schema validation: a given status replaces
      the old one and must be in the enum; notes and meetingLink are replaced
      only when given; nothing else changes. */
  function ApplyPatch(m: Meeting, body: PatchBody): (r: Result<Meeting, ValidationError>)
    ensures r.Ok? <==> !Given(body.status) || ParseStatus(body.status.value).Some?
    ensures r.Ok? ==> r.value.(status := m.status, notes := m.notes, meetingLink := m.meetingLink) == m
    ensures r.Ok? && Given(body.status) ==> StatusName(r.value.status) == body.status.value
    ensures r.Ok? && !Given(body.status) ==> r.value.status == m.status
    ensures r.Ok? ==> r.value.notes == (if Given(body.notes) then body.notes else m.notes)
    ensures r.Ok? ==> r.value.meetingLink == (if Given(body.meetingLink) then body.meetingLink else m.meetingLink)
  {
    var status := if Given(body.status) then ParseStatus(body.status.value) else Some(m.status);
    if status.None? then Err(NotInEnum(body.status.value))
    else
      Ok(m.(status := status.value,
            notes := if Given(body.notes) then body.notes else m.notes,
            meetingLink := if Given(body.meetingLink) then body.meetingLink else m.meetingLink))
  }

  /** Sending the same PATCH twice leaves the meeting as the first one did. */
  lemma ApplyPatchIdempotent(m: Meeting, body: PatchBody)
    requires ApplyPatch(m, body).Ok?
    ensures ApplyPatch(ApplyPatch(m, body).value, body) == ApplyPatch(m, body)
  {
    var once := ApplyPatch(m, body).value;
    if !Given(body.status) {
      ParseStatusName(once.status);
    }
  }

  /** GET /mentors/industry/:industry: the mentors listing the tag among their
      industries, in stored order. */
  function MentorsByIndustry(mentors: seq<Mentor>, industry: string): (r: seq<Mentor>)
    ensures forall k :: 0 <= k < |r| ==> industry in r[k].industries
  {
    Filter(mentors, (m: Mentor) => industry in m.industries)
  }

  /** Exactly the mentors with the tag are listed. */
  lemma MentorsByIndustryMembers(mentors: seq<Mentor>, industry: string, m: Mentor)
    ensures m in MentorsByIndustry(mentors, industry) <==> m in mentors && industry in m.industries
  {
    FilterMembership(mentors, (x: Mentor) => industry in x.industries, m);
  }

  /** GET /mentors/:id: the stored mentor, or 404. */
  function GetMentor(mentors: seq<Mentor>, id: string): (r: Reply)
    ensures r == Failure(404, "Mentor not found") <==> forall k :: 0 <= k < |mentors| ==> mentors[k].id != id
    ensures (exists k :: 0 <= k < |mentors| && mentors[k].id == id) ==> r.MentorDoc?
    ensures r.MentorDoc? ==> r.doc in mentors && r.doc.id == id
    ensures r.MentorDoc? ==> r.doc == mentors[IndexOfMentorId(mentors, id)]
  {
    var i := IndexOfMentorId(mentors, id);
    if i == |mentors| then Failure(404, "Mentor not found") else MentorDoc(mentors[i])
  }

  /** GET /mentors/me/profile: 401 without a valid token, 500 when the token's
      mentor no longer exists, otherwise the whole stored document. */
  function Profile(mentors: seq<Mentor>, authorization: Option<string>,
                   verify: string -> Option<string>): (r: Reply)
    ensures Protect(mentors, authorization, verify).Denied? <==> r == Failure(401, NotAuthorizedRoute)
    ensures r.MentorDoc? <==> Protect(mentors, authorization, verify).Authorized?
                              && Protect(mentors, authorization, verify).mentor.Some?
    ensures r.MentorDoc? ==> r.doc in mentors
    ensures r.MentorDoc? ==> r.doc == Protect(mentors, authorization, verify).mentor.value
    ensures var g := Protect(mentors, authorization, verify);
      g.Authorized? && g.mentor.None? ==> r.Status() == 500
  {
    var g := Protect(mentors, authorization, verify);
    if g.Denied? then Failure(401, NotAuthorizedRoute)
    else if g.mentor.None? then Failure(500, "Cannot read properties of null (reading '_id')")
    else MentorDoc(g.mentor.value)
  }

  /** The key meeting lists are sorted by. */
  function DateOf(m: Meeting): int {
    m.date
  }

  /** Selects the meetings of one student. */
  function OfUser(userId: string): Meeting -> bool {
    (m: Meeting) => m.userId == userId
  }

  /** Selects the meetings of one mentor. */
  function OfMentor(mentorId: string): Meeting -> bool {
    (m: Meeting) => m.mentorId == mentorId
  }

  /** GET /meetings/user/:userId and /meetings/mentor/:mentorId: the selected
      meetings sorted by date, ascending. */
  function MeetingsWhere(meetings: seq<Meeting>, keep: Meeting -> bool): (r: seq<Meeting>)
    ensures SortedBy(r, DateOf)
    ensures multiset(r) == multiset(Filter(meetings, keep))
  {
    SortBy(Filter(meetings, keep), DateOf)
  }

  /** The listing holds exactly the selected meetings. */
  lemma MeetingsWhereMembers(meetings: seq<Meeting>, keep: Meeting -> bool, m: Meeting)
    ensures m in MeetingsWhere(meetings, keep) <==> m in meetings && keep(m)
  {
    var r := MeetingsWhere(meetings, keep);
    assert m in r <==> m in multiset(r);
    assert m in Filter(meetings, keep) <==> m in multiset(Filter(meetings, keep));
    FilterMembership(meetings, keep, m);
  }

  /** A student's listing holds exactly their meetings, earliest first. */
  lemma MeetingsForUserSpec(meetings: seq<Meeting>, userId: string, m: Meeting)
    ensures SortedBy(MeetingsWhere(meetings, OfUser(userId)), DateOf)
    ensures m in MeetingsWhere(meetings, OfUser(userId)) <==> m in meetings && m.userId == userId
  {
    MeetingsWhereMembers(meetings, OfUser(userId), m);
  }

  /** A mentor's listing holds exactly their meetings, earliest first. */
  lemma MeetingsForMentorSpec(meetings: seq<Meeting>, mentorId: string, m: Meeting)
    ensures SortedBy(MeetingsWhere(meetings, OfMentor(mentorId)), DateOf)
    ensures m in MeetingsWhere(meetings, OfMentor(mentorId)) <==> m in meetings && m.mentorId == mentorId
  {
    MeetingsWhereMembers(meetings, OfMentor(mentorId), m);
  }

  /** A mentor who has just registered can log in with that password,
      provided hashes are non-empty and comparison accepts a password against
      its own hash. */
  lemma RegisterThenLogin(mentors: seq<Mentor>, email: string, password: string,
                          hash: string -> string, compare: (string, string) -> bool,
                          sign: string -> string)
    requires email != "" && password != "" && IndexOfMentorEmail(mentors, email) < |mentors|
    requires forall p :: hash(p) != "" && compare(p, hash(p))
    ensures
      var i := IndexOfMentorEmail(mentors, email);
      var after := mentors[i := Activate(mentors[i], password, hash)];
      Login(after, email, password, compare, sign).Authenticated?
  {
    var i := IndexOfMentorEmail(mentors, email);
    var a := Activate(mentors[i], password, hash);
    assert a.email == email;
    FirstIndexUpdate(mentors, i, a, (m: Mentor) => m.email == email);
    assert hash(password) != "" && compare(password, hash(password));
  }

  predicate UniqueMentors(mentors: seq<Mentor>) {
    forall i, j :: 0 <= i < j < |mentors| ==>
      mentors[i].email != mentors[j].email && mentors[i].id != mentors[j].id
  }

  predicate UniqueMeetings(meetings: seq<Meeting>) {
    forall i, j :: 0 <= i < j < |meetings| ==> meetings[i].id != meetings[j].id
  }

  /** The mentors and meetings collections. */
  class MentorApi {
    var mentors: seq<Mentor>
    var meetings: seq<Meeting>

    /** Every document satisfies its schema; mentor emails and all ids are unique. */
    predicate Valid()
      reads this
    {
      && UniqueMentors(mentors) && UniqueMeetings(meetings)
      && (forall k :: 0 <= k < |mentors| ==> MentorModel.SchemaValid(mentors[k]))
      && (forall k :: 0 <= k < |meetings| ==> MeetingModel.SchemaValid(meetings[k]))
    }

    constructor ()
      ensures mentors == [] && meetings == [] && Valid()
    {
      mentors := [];
      meetings := [];
    }

    /** POST /mentors/register. An unknown email gives 404; an empty password
        fails validation, since the mentor is now registered (500); otherwise
        the mentor gets the hashed password and `isRegistered`, even if it was
        registered before, and the reply carries a token and the summary. */
    method Register(email: string, password: string, hash: string -> string, sign: string -> string)
      returns (r: Reply)
      requires Valid()
      modifies this
      ensures Valid() && meetings == old(meetings)
      ensures IndexOfMentorEmail(old(mentors), email) == |old(mentors)| ==>
        r == Failure(404, "Mentor not found with this email") && mentors == old(mentors)
      ensures IndexOfMentorEmail(old(mentors), email) < |old(mentors)| && password == "" ==>
        r.Failure? && r.Status() == 500 && mentors == old(mentors)
      ensures IndexOfMentorEmail(old(mentors), email) < |old(mentors)| && password != "" ==>
        var i := IndexOfMentorEmail(old(mentors), email);
        && mentors == old(mentors)[i := Activate(old(mentors)[i], password, hash)]
        && r == Authenticated(sign(mentors[i].id), Summary(mentors[i]))
    {
      var i := IndexOfMentorEmail(mentors, email);
      if i == |mentors| {
        return Failure(404, "Mentor not found with this email");
      }
      if password == "" {
        return Failure(500, "Mentor validation failed: password: Path `password` is required.");
      }
      var m := Activate(mentors[i], password, hash);
      mentors := mentors[i := m];
      r := Authenticated(sign(m.id), Summary(m));
    }

    /** POST /mentors. A body failing validation, or an email already taken
        (the unique index), gives 500; otherwise the new mentor is appended and
        returned as stored. `id` is the fresh id the database assigns. */
    method CreateMentor(id: string, input: MentorInput, hash: string -> string) returns (r: Reply)
      requires Valid()
      requires forall k :: 0 <= k < |mentors| ==> mentors[k].id != id
      modifies this
      ensures Valid() && meetings == old(meetings)
      ensures MentorModel.CreateMentor(id, input, hash).Err? ==>
        r.Status() == 500 && mentors == old(mentors)
      ensures r.CreatedMentor? <==>
        && MentorModel.CreateMentor(id, input, hash).Ok?
        && IndexOfMentorEmail(old(mentors), input.email.value) == |old(mentors)|
      ensures r.CreatedMentor? ==>
        && r.created == MentorModel.CreateMentor(id, input, hash).value
        && mentors == old(mentors) + [r.created]
      ensures !r.CreatedMentor? ==> r.Status() == 500 && mentors == old(mentors)
    {
      var created := MentorModel.CreateMentor(id, input, hash);
      if created.Err? {
        return Failure(500, "Mentor validation failed");
      }
      if IndexOfMentorEmail(mentors, created.value.email) < |mentors| {
        return Failure(500, "E11000 duplicate key error");
      }
      mentors := mentors + [created.value];
      r := CreatedMentor(created.value);
    }

    /** POST /meetings. A body failing validation gives 500; otherwise the
        meeting is appended and returned. `id` is the fresh id the database assigns. */
    method CreateMeeting(id: string, input: MeetingInput) returns (r: Reply)
      requires Valid()
      requires forall k :: 0 <= k < |meetings| ==> meetings[k].id != id
      modifies this
      ensures Valid() && mentors == old(mentors)
      ensures MeetingModel.CreateMeeting(id, input).Err? ==>
        r.Status() == 500 && meetings == old(meetings)
      ensures MeetingModel.CreateMeeting(id, input).Ok? ==>
        && r == CreatedMeeting(MeetingModel.CreateMeeting(id, input).value)
        && meetings == old(meetings) + [r.meeting]
    {
      var created := MeetingModel.CreateMeeting(id, input);
      if created.Err? {
        return Failure(500, "Meeting validation failed");
      }
      meetings := meetings + [created.value];
      r := CreatedMeeting(created.value);
    }

    /** PATCH /meetings/:id behind `protect`. Denied by the guard: 401. An
        unknown meeting: 404. A token whose mentor no longer exists: 500. A
        meeting owned by another mentor: 401. A status outside the enum: 500.
        In all these cases nothing changes; otherwise the merged meeting
        replaces the old one and is returned. */
    method Patch(meetingId: string, authorization: Option<string>,
                 verify: string -> Option<string>, body: PatchBody) returns (r: Reply)
      requires Valid()
      modifies this
      ensures Valid() && mentors == old(mentors)
      ensures !r.MeetingDoc? ==> meetings == old(meetings) && r.Failure?
      ensures Protect(old(mentors), authorization, verify).Denied? ==>
        r == Failure(401, NotAuthorizedRoute)
      ensures Protect(old(mentors), authorization, verify).Authorized?
              && IndexOfMeeting(old(meetings), meetingId) == |old(meetings)| ==>
        r == Failure(404, "Meeting not found")
      ensures var g := Protect(old(mentors), authorization, verify);
              var i := IndexOfMeeting(old(meetings), meetingId);
        g.Authorized? && i < |old(meetings)| && g.mentor.None? ==> r.Status() == 500
      ensures var g := Protect(old(mentors), authorization, verify);
              var i := IndexOfMeeting(old(meetings), meetingId);
        g.Authorized? && i < |old(meetings)| && g.mentor.Some?
        && old(meetings)[i].mentorId != g.mentor.value.id ==>
          r == Failure(401, NotAuthorizedMeeting)
      ensures r.MeetingDoc? ==>
        var g := Protect(old(mentors), authorization, verify);
        var i := IndexOfMeeting(old(meetings), meetingId);
        && g.Authorized? && g.mentor.Some? && i < |old(meetings)|
        && old(meetings)[i].mentorId == g.mentor.value.id
        && ApplyPatch(old(meetings)[i], body) == Ok(r.updated)
        && meetings == old(meetings)[i := r.updated]
      ensures var g := Protect(old(mentors), authorization, verify);
              var i := IndexOfMeeting(old(meetings), meetingId);
        g.Authorized? && g.mentor.Some? && i < |old(meetings)|
        && old(meetings)[i].mentorId == g.mentor.value.id ==>
          if ApplyPatch(old(meetings)[i], body).Ok?
          then r == MeetingDoc(ApplyPatch(old(meetings)[i], body).value)
          else r.Status() == 500
    {
      var g := Protect(mentors, authorization, verify);
      if g.Denied? {
        return Failure(401, NotAuthorizedRoute);
      }
      var i := IndexOfMeeting(meetings, meetingId);
      if i == |meetings| {
        return Failure(404, "Meeting not found");
      }
      if g.mentor.None? {
        return Failure(500, "Cannot read properties of null (reading '_id')");
      }
      if meetings[i].mentorId != g.mentor.value.id {
        return Failure(401, NotAuthorizedMeeting);
      }
      var patched := ApplyPatch(meetings[i], body);
      if patched.Err? {
        return Failure(500, "Meeting validation failed");
      }
      assert forall k :: 0 <= k < |meetings| && k != i ==> meetings[i := patched.value][k] == meetings[k];
      meetings := meetings[i := patched.value];
      r := MeetingDoc(patched.value);
    }
  }
}
