/** The student account (User) of the back end, and the registration
    body the onboarding wizard sends for it. */
module UserModel {
  import opened Common

  /** A self-rated skill. The page offers whole ratings only. */
  datatype Skill = Skill(name: string, rating: int)

  /** A certificate as the wizard holds it: a name and an optional uploaded
      file (represented by its file name). */
  datatype Certificate = Certificate(name: string, file: Option<string>)

  /** The registration body: exactly the fourteen profile fields the client sends. */
  datatype RegistrationBody = RegistrationBody(
    fullName: string,
    email: string,
    password: string,
    age: string,
    education: string,
    fieldOfStudy: string,
    institution: string,
    certificates: seq<Certificate>,
    technicalSkills: seq<Skill>,
    softSkills: seq<Skill>,
    desiredRoles: seq<string>,
    industryPreference: seq<string>,
    timeline: string,
    specificGoal: string)

  /** A stored user. The certificate schema keeps only the name of each
      certificate. `password` holds the stored hash; a user handed to a client
      has it removed (None). */
  datatype User = User(
    id: string,
    fullName: string,
    email: string,
    password: Option<string>,
    age: string,
    education: string,
    fieldOfStudy: string,
    institution: string,
    certificates: seq<string>,
    technicalSkills: seq<Skill>,
    softSkills: seq<Skill>,
    desiredRoles: seq<string>,
    industryPreference: seq<string>,
    timeline: string,
    specificGoal: string)

  /** The names the certificate schema keeps, in order. */
  function CertificateNames(cs: seq<Certificate>): (r: seq<string>)
    ensures |r| == |cs|
    ensures forall k :: 0 <= k < |cs| ==> r[k] == cs[k].name
  {
    seq(|cs|, k requires 0 <= k < |cs| => cs[k].name)
  }

  /** The schema's required fields hold: fullName and email are non-empty and
      a password is stored. Validation runs before the pre-save hook, so it is
      the plain password that must be non-empty; what is stored is its hash. */
  predicate SchemaValid(u: User) {
    u.fullName != "" && u.email != "" && u.password.Some?
  }
}
