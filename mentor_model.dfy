/** The Mentor document of the back end: a mentor profile that becomes a
    login account once `isRegistered` is set, with a password that the
    schema requires exactly for registered mentors. */
module MentorModel {
  import opened Common
  import opened MeetingModel

  /** One day of availability and the slots offered on it. */
  datatype DaySlots = DaySlots(day: string, slots: seq<string>)

  /** A stored mentor. `password` holds the hash the pre-save hook produced. */
  datatype Mentor = Mentor(
    id: string,
    name: string,
    email: string,
    password: Option<string>,
    isRegistered: bool,
    role: string,
    company: Option<string>,
    bio: Option<string>,
    expertise: seq<string>,
    industries: seq<string>,
    imageUrl: string,
    availability: seq<DaySlots>)

  /** The portrait used when a mentor is created without an image. */
  const DefaultImageUrl: string :=
    "https://img.freepik.com/free-photo/confident-business-woman-portrait-smiling-face_53876-137693.jpg"

  /** The body of a create request, field by field as the client sent it. */
  datatype MentorInput = MentorInput(
    name: Option<string>,
    email: Option<string>,
    password: Option<string>,
    isRegistered: Option<bool>,
    role: Option<string>,
    company: Option<string>,
    bio: Option<string>,
    expertise: seq<string>,
    industries: seq<string>,
    imageUrl: Option<string>,
    availability: seq<DaySlots>)

  /** The schema's required fields hold: name, email and role are non-empty,
      and a registered mentor has a password. */
  predicate SchemaValid(m: Mentor) {
    m.name != "" && m.email != "" && m.role != "" && (m.isRegistered ==> m.password.Some?)
  }

  /** The conditional `required` of the password: it must be given (and not
      empty) exactly when the mentor is registered. */
  predicate PasswordOk(isRegistered: bool, password: Option<string>) {
    isRegistered ==> Given(password)
  }

  /** The pre-save hook as the evidently intended code runs it: an unmodified
      password is left alone; a modified, non-empty one is replaced by its hash. */
  function PreSave(m: Mentor, passwordModified: bool, hash: string -> string): (r: Mentor)
    ensures !passwordModified ==> r == m
    ensures passwordModified && Given(m.password) ==> r.password == Some(hash(m.password.value))
    ensures r.(password := m.password) == m
  {
    if !passwordModified then m
    else if Given(m.password) then m.(password := Some(hash(m.password.value)))
    else m
  }

  /** The pre-save hook as written: the early `next()` for an unmodified
      password does not return, so the hash step runs whenever a password is set. */
  function PreSaveAsWritten(m: Mentor, passwordModified: bool, hash: string -> string): (r: Mentor)
    ensures Given(m.password) ==> r.password == Some(hash(m.password.value))
    ensures r.(password := m.password) == m
  {
    if Given(m.password) then m.(password := Some(hash(m.password.value))) else m
  }

  /** On every save that sets the password the two hooks agree; that is the
      only kind of mentor save the routes perform. */
  lemma PreSaveAgreesWhenModified(m: Mentor, hash: string -> string)
    ensures PreSaveAsWritten(m, true, hash) == PreSave(m, true, hash)
  {
  }

  /** The discrepancy: saving a registered mentor whose password was not
      touched hashes the stored hash again, so the password that hashed to it
      no longer matches. */
  lemma PreSaveAsWrittenRehashes()
    ensures
      var m := Mentor("m1", "Ada", "ada@example.com", Some("$2a$10$h"), true, "Engineer",
                      None, None, [], [], DefaultImageUrl, []);
      var hash := (p: string) => "$2a$10$" + p;
      && PreSaveAsWritten(m, false, hash).password == Some("$2a$10$$2a$10$h")
      && PreSave(m, false, hash) == m
  {
    var hash := (p: string) => "$2a$10$" + p;
    assert hash("$2a$10$h") == "$2a$10$$2a$10$h";
  }

  /** `new Mentor(body)` followed by validation and the pre-save hook:
      defaults fill `isRegistered` (false) and `imageUrl`; the required fields
      must be given; the password is required exactly for a registered mentor
      and is stored hashed. */
  function CreateMentor(id: string, input: MentorInput, hash: string -> string)
    : (r: Result<Mentor, ValidationError>)
    ensures r.Ok? <==>
      && Given(input.name) && Given(input.email) && Given(input.role)
      && PasswordOk(input.isRegistered.GetOr(false), input.password)
    ensures r.Ok? ==> SchemaValid(r.value) && r.value.id == id
    ensures r.Ok? ==> r.value.isRegistered == input.isRegistered.GetOr(false)
    ensures r.Ok? ==> r.value.imageUrl == input.imageUrl.GetOr(DefaultImageUrl)
    ensures r.Ok? && Given(input.password) ==> r.value.password == Some(hash(input.password.value))
    ensures r.Ok? && !Given(input.password) ==> r.value.password == input.password
    ensures r.Ok? ==>
      && r.value.name == input.name.value && r.value.email == input.email.value
      && r.value.role == input.role.value
    ensures r.Ok? ==>
      && r.value.company == input.company && r.value.bio == input.bio
      && r.value.expertise == input.expertise && r.value.industries == input.industries
      && r.value.availability == input.availability
  {
    var isRegistered := input.isRegistered.GetOr(false);
    if !Given(input.name) then Err(MissingField("name"))
    else if !Given(input.email) then Err(MissingField("email"))
    else if !PasswordOk(isRegistered, input.password) then Err(MissingField("password"))
    else if !Given(input.role) then Err(MissingField("role"))
    else
      var m := Mentor(id, input.name.value, input.email.value, input.password, isRegistered,
                      input.role.value, input.company, input.bio, input.expertise,
                      input.industries, input.imageUrl.GetOr(DefaultImageUrl),
                      input.availability);
      Ok(PreSave(m, input.password.Some?, hash))
  }

  /** Without a password, creation succeeds exactly for an unregistered mentor
      (given the other required fields): the password requirement follows
      `isRegistered` in both directions. */
  lemma PasswordRequiredIffRegistered(id: string, input: MentorInput, hash: string -> string)
    requires Given(input.name) && Given(input.email) && Given(input.role)
    requires !Given(input.password)
    ensures CreateMentor(id, input, hash).Ok? <==> !input.isRegistered.GetOr(false)
  {
  }

  /** `matchPassword`: false whenever no (non-empty) password is stored,
      otherwise the hash comparison. */
  function MatchPassword(m: Mentor, entered: string, compare: (string, string) -> bool): (r: bool)
    ensures !Given(m.password) ==> !r
    ensures r <==> Given(m.password) && compare(entered, m.password.value)
  {
    if !Given(m.password) then false else compare(entered, m.password.value)
  }
}
