/** The student-account routes of the back end: register, login, listing,
    lookup, update and delete over the users collection. Hashing, token
    signing and password comparison are opaque functions passed in. */
module UserRoutes {
  import opened Common
  import opened Lists
  import opened UserModel

  /** The password stored when a registration body carries none. */
  const DefaultPassword: string := "defaultpassword123"

  /** What a route sends back. `Failure` carries the HTTP status and message. */
  datatype Reply =
    | Registered(user: User, token: string)
    | LoggedIn(user: User, token: string)
    | Found(user: User)
    | Listed(users: seq<User>)
    | Deleted
    | Failure(status: nat, message: string)
  {
    /** The HTTP status of the reply. */
    function Status(): nat {
      match this
      case Registered(_, _) => 201
      case Failure(status, _) => status
      case _ => 200
    }
  }

  /** No user in the reply carries a password. */
  predicate NoPassword(r: Reply) {
    match r
    case Registered(u, _) => u.password.None?
    case LoggedIn(u, _) => u.password.None?
    case Found(u) => u.password.None?
    case Listed(us) => forall k :: 0 <= k < |us| ==> us[k].password.None?
    case _ => true
  }

  /** A user as the routes hand it out: the password field removed. */
  function StripPassword(u: User): (r: User)
    ensures r.password.None?
    ensures r.(password := u.password) == u
  {
    u.(password := None)
  }

  /** The position of the first user with this email, or |users|. */
  function IndexOfEmail(users: seq<User>, email: string): (i: nat)
    ensures i <= |users|
    ensures i < |users| ==> users[i].email == email
    ensures i == |users| <==> forall k :: 0 <= k < |users| ==> users[k].email != email
  {
    FirstIndex(users, (u: User) => u.email == email)
  }

  /** The position of the first user with this id, or |users|. */
  function IndexOfId(users: seq<User>, id: string): (i: nat)
    ensures i <= |users|
    ensures i < |users| ==> users[i].id == id
    ensures i == |users| <==> forall k :: 0 <= k < |users| ==> users[k].id != id
  {
    FirstIndex(users, (u: User) => u.id == id)
  }

  /** The password a registration stores before hashing: the given one, or the
      default when the body's password is empty. */
  function PlainPassword(body: RegistrationBody): (p: string)
    ensures p != ""
    ensures body.password != "" ==> p == body.password
    ensures body.password == "" ==> p == DefaultPassword
  {
    if body.password != "" then body.password else DefaultPassword
  }

  /** The document a registration saves: the body's fields with the chosen
      password, after the pre-save hook has hashed it. */
  function NewUser(id: string, body: RegistrationBody, hash: string -> string): (u: User)
    ensures u.id == id && u.email == body.email && u.fullName == body.fullName
    ensures u.password == Some(hash(PlainPassword(body)))
    ensures u.certificates == CertificateNames(body.certificates)
  {
    User(id, body.fullName, body.email, Some(hash(PlainPassword(body))), body.age,
         body.education, body.fieldOfStudy, body.institution,
         CertificateNames(body.certificates), body.technicalSkills, body.softSkills,
         body.desiredRoles, body.industryPreference, body.timeline, body.specificGoal)
  }

  /** POST /login: 404 for an unknown email, 401 for a wrong password,
      otherwise the user without its password and a token signed over its id
      and email. A stored user without a password makes the comparison throw (500). */
  function Login(users: seq<User>, email: string, password: string,
                 compare: (string, string) -> bool,
                 sign: (string, string) -> string): (r: Reply)
    ensures NoPassword(r)
    ensures r.Status() == 404 <==> forall k :: 0 <= k < |users| ==> users[k].email != email
    ensures r.Status() == 401 <==>
      exists k :: 0 <= k < |users| && k == IndexOfEmail(users, email)
        && users[k].password.Some? && !compare(password, users[k].password.value)
    ensures r.LoggedIn? <==>
      exists k :: 0 <= k < |users| && k == IndexOfEmail(users, email)
        && users[k].password.Some? && compare(password, users[k].password.value)
    ensures r.LoggedIn? ==>
      var u := users[IndexOfEmail(users, email)];
      r.user == StripPassword(u) && r.token == sign(u.id, u.email)
  {
    var i := IndexOfEmail(users, email);
    if i == |users| then Failure(404, "User not found")
    else if users[i].password.None? then Failure(500, "Illegal arguments")
    else if !compare(password, users[i].password.value) then Failure(401, "Invalid credentials")
    else LoggedIn(StripPassword(users[i]), sign(users[i].id, users[i].email))
  }

  /** GET /users: every user, in order, without passwords. */
  function ListUsers(users: seq<User>): (r: Reply)
    ensures r.Listed? && NoPassword(r) && |r.users| == |users|
    ensures forall k :: 0 <= k < |users| ==> r.users[k] == StripPassword(users[k])
  {
    Listed(seq(|users|, k requires 0 <= k < |users| => StripPassword(users[k])))
  }

  /** GET /users/:id: the user without its password, or 404. */
  function GetUser(users: seq<User>, id: string): (r: Reply)
    ensures NoPassword(r)
    ensures r.Status() == 404 <==> forall k :: 0 <= k < |users| ==> users[k].id != id
    ensures r.Status() != 404 ==> r.Found?
    ensures r.Found? ==> r.user == StripPassword(users[IndexOfId(users, id)])
  {
    var i := IndexOfId(users, id);
    if i == |users| then Failure(404, "User not found") else Found(StripPassword(users[i]))
  }

  /** The fields a PUT body may set; `None` leaves a field as it is. */
  datatype UserUpdate = UserUpdate(
    fullName: Option<string>,
    email: Option<string>,
    password: Option<string>,
    age: Option<string>,
    education: Option<string>,
    fieldOfStudy: Option<string>,
    institution: Option<string>,
    certificates: Option<seq<string>>,
    technicalSkills: Option<seq<Skill>>,
    softSkills: Option<seq<Skill>>,
    desiredRoles: Option<seq<string>>,
    industryPreference: Option<seq<string>>,
    timeline: Option<string>,
    specificGoal: Option<string>)

  /** The PUT route's password guard: a non-empty password is dropped; an
      empty one is falsy in JavaScript and so stays in the body. */
  function DiscardPassword(upd: UserUpdate): (r: UserUpdate)
    ensures r.password.Some? ==> r.password.value == ""
    ensures upd.password == Some("") ==> r.password == Some("")
    ensures upd.password.Some? && upd.password.value != "" ==> r.password.None?
    ensures upd.password.None? ==> r.password.None?
    ensures r.(password := upd.password) == upd
  {
    if upd.password.Some? && upd.password.value != "" then upd.(password := None) else upd
  }

  /** The update validators: a required field the update sets must not be empty. */
  predicate UpdateValid(upd: UserUpdate) {
    && upd.fullName != Some("") && upd.email != Some("") && upd.password != Some("")
  }

  /** The `$set` of an update onto a stored user. */
  function Apply(u: User, upd: UserUpdate): (r: User)
    ensures r.id == u.id
    ensures upd.password.None? ==> r.password == u.password
    ensures upd.password.Some? ==> r.password == upd.password
    ensures SetOrKept(upd.fullName, u.fullName, r.fullName)
    ensures SetOrKept(upd.email, u.email, r.email)
    ensures SetOrKept(upd.age, u.age, r.age)
    ensures SetOrKept(upd.education, u.education, r.education)
    ensures SetOrKept(upd.fieldOfStudy, u.fieldOfStudy, r.fieldOfStudy)
    ensures SetOrKept(upd.institution, u.institution, r.institution)
    ensures SetOrKept(upd.certificates, u.certificates, r.certificates)
    ensures SetOrKept(upd.technicalSkills, u.technicalSkills, r.technicalSkills)
    ensures SetOrKept(upd.softSkills, u.softSkills, r.softSkills)
    ensures SetOrKept(upd.desiredRoles, u.desiredRoles, r.desiredRoles)
    ensures SetOrKept(upd.industryPreference, u.industryPreference, r.industryPreference)
    ensures SetOrKept(upd.timeline, u.timeline, r.timeline)
    ensures SetOrKept(upd.specificGoal, u.specificGoal, r.specificGoal)
  {
    User(u.id, upd.fullName.GetOr(u.fullName), upd.email.GetOr(u.email),
         if upd.password.Some? then upd.password else u.password,
         upd.age.GetOr(u.age), upd.education.GetOr(u.education),
         upd.fieldOfStudy.GetOr(u.fieldOfStudy), upd.institution.GetOr(u.institution),
         upd.certificates.GetOr(u.certificates),
         upd.technicalSkills.GetOr(u.technicalSkills), upd.softSkills.GetOr(u.softSkills),
         upd.desiredRoles.GetOr(u.desiredRoles),
         upd.industryPreference.GetOr(u.industryPreference),
         upd.timeline.GetOr(u.timeline), upd.specificGoal.GetOr(u.specificGoal))
  }

  /** Applying the same update twice is the same as applying it once. */
  lemma ApplyIdempotent(u: User, upd: UserUpdate)
    ensures Apply(Apply(u, upd), upd) == Apply(u, upd)
  {
  }

  /** A PUT body after the password has been discarded never changes a stored
      password: either it passes validation without a password, or it fails. */
  lemma PutKeepsPassword(u: User, upd: UserUpdate)
    ensures UpdateValid(DiscardPassword(upd)) ==> Apply(u, DiscardPassword(upd)).password == u.password
  {
  }

  /** Emails are unique across the collection (the `unique` index). */
  predicate UniqueEmails(users: seq<User>) {
    forall i, j :: 0 <= i < j < |users| ==> users[i].email != users[j].email
  }

  /** Ids are unique across the collection. */
  predicate UniqueIds(users: seq<User>) {
    forall i, j :: 0 <= i < j < |users| ==> users[i].id != users[j].id
  }

  /** Removing one element keeps the remaining emails and ids unique. */
  lemma RemoveKeepsUnique(users: seq<User>, i: nat)
    requires i < |users| && UniqueEmails(users) && UniqueIds(users)
    ensures UniqueEmails(users[..i] + users[i + 1..]) && UniqueIds(users[..i] + users[i + 1..])
  {
    var r := users[..i] + users[i + 1..];
    assert forall k :: 0 <= k < |r| ==> r[k] == users[if k < i then k else k + 1];
  }

  /** Some user other than the one at position `i` already has this email. */
  predicate EmailTakenByOther(users: seq<User>, i: nat, email: string) {
    exists k :: 0 <= k < |users| && k != i && users[k].email == email
  }

  /** The users collection. */
  class UserStore {
    var users: seq<User>

    /** Every stored user satisfies the schema; emails and ids are unique. */
    predicate Valid()
      reads this
    {
      && UniqueEmails(users) && UniqueIds(users)
      && forall k :: 0 <= k < |users| ==> SchemaValid(users[k])
    }

    constructor ()
      ensures users == [] && Valid()
    {
      users := [];
    }

    /** POST /register. An existing email gives 400 and creates nothing; a
        body failing validation gives 500; otherwise the user is appended with
        its hashed password (the default one when none was given) and the
        reply carries the user without its password and a token. `id` is the
        fresh id the database assigns. */
    method Register(id: string, body: RegistrationBody,
                    hash: string -> string, sign: (string, string) -> string)
      returns (r: Reply)
      requires Valid()
      requires forall k :: 0 <= k < |users| ==> users[k].id != id
      modifies this
      ensures Valid() && NoPassword(r)
      ensures IndexOfEmail(old(users), body.email) < |old(users)| ==>
        r == Failure(400, "User with this email already exists") && users == old(users)
      ensures IndexOfEmail(old(users), body.email) == |old(users)|
              && (body.fullName == "" || body.email == "") ==>
        r.Failure? && r.Status() == 500 && users == old(users)
      ensures IndexOfEmail(old(users), body.email) == |old(users)|
              && body.fullName != "" && body.email != "" ==>
        && users == old(users) + [NewUser(id, body, hash)]
        && r == Registered(StripPassword(NewUser(id, body, hash)), sign(id, body.email))
    {
      if IndexOfEmail(users, body.email) < |users| {
        return Failure(400, "User with this email already exists");
      }
      if body.fullName == "" || body.email == "" {
        return Failure(500, "User validation failed");
      }
      var saved := NewUser(id, body, hash);
      users := users + [saved];
      r := Registered(StripPassword(saved), sign(saved.id, saved.email));
    }

    /** PUT /users/:id. A non-empty password in the body is discarded; the
        update validators reject an empty required field (500); an unknown id
        gives 404; an email taken by another user violates the unique index
        (500); otherwise the user is replaced by the updated one, whose
        password is unchanged. */
    method Update(id: string, upd: UserUpdate) returns (r: Reply)
      requires Valid()
      modifies this
      ensures Valid() && NoPassword(r)
      ensures r.Status() != 200 ==> users == old(users)
      ensures !UpdateValid(DiscardPassword(upd)) ==> r.Status() == 500
      ensures UpdateValid(DiscardPassword(upd)) && IndexOfId(old(users), id) == |old(users)| ==>
        r == Failure(404, "User not found")
      ensures r.Found? ==>
        var i := IndexOfId(old(users), id);
        && i < |old(users)|
        && users == old(users)[i := Apply(old(users)[i], DiscardPassword(upd))]
        && users[i].password == old(users)[i].password
        && r.user == StripPassword(users[i])
      ensures UpdateValid(DiscardPassword(upd)) && IndexOfId(old(users), id) < |old(users)| ==>
        var i := IndexOfId(old(users), id);
        var updated := Apply(old(users)[i], DiscardPassword(upd));
        if EmailTakenByOther(old(users), i, updated.email) then r.Status() == 500
        else r == Found(StripPassword(updated)) && users == old(users)[i := updated]
    {
      var d := DiscardPassword(upd);
      if !UpdateValid(d) {
        return Failure(500, "Validation failed");
      }
      var i := IndexOfId(users, id);
      if i == |users| {
        return Failure(404, "User not found");
      }
      var updated := Apply(users[i], d);
      if EmailTakenByOther(users, i, updated.email) {
        return Failure(500, "E11000 duplicate key error");
      }
      users := users[i := updated];
      r := Found(StripPassword(updated));
    }

    /** DELETE /users/:id: 404 for an unknown id, otherwise the user is removed. */
    method Delete(id: string) returns (r: Reply)
      requires Valid()
      modifies this
      ensures Valid()
      ensures IndexOfId(old(users), id) == |old(users)| ==>
        r == Failure(404, "User not found") && users == old(users)
      ensures IndexOfId(old(users), id) < |old(users)| ==>
        var i := IndexOfId(old(users), id);
        r == Deleted && users == old(users)[..i] + old(users)[i + 1..]
    {
      var i := IndexOfId(users, id);
      if i == |users| {
        return Failure(404, "User not found");
      }
      RemoveKeepsUnique(users, i);
      users := users[..i] + users[i + 1..];
      r := Deleted;
    }
  }

  /** A student who has just registered can log in with the password they
      gave (or the default one), provided comparison accepts a password
      against its own hash. */
  lemma RegisterThenLogin(users: seq<User>, id: string, body: RegistrationBody,
                          hash: string -> string, compare: (string, string) -> bool,
                          sign: (string, string) -> string)
    requires IndexOfEmail(users, body.email) == |users|
    requires forall p :: compare(p, hash(p))
    ensures Login(users + [NewUser(id, body, hash)], body.email, PlainPassword(body), compare, sign)
            == LoggedIn(StripPassword(NewUser(id, body, hash)), sign(id, body.email))
  {
    var u := NewUser(id, body, hash);
    FirstIndexAppend(users, u, (v: User) => v.email == body.email);
  }
}
