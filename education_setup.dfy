/** The education step of onboarding: three text fields and an editable
    list of certificates (a name and an optional file each), of which only
    the named ones are handed to the shell on submit. */
module EducationForm {
  import opened Strings
  import opened Lists
  import opened Common
  import opened UserModel
  import Onboarding

  /** An empty certificate row. */
  const BlankCertificate: Certificate := Certificate("", None)

  /** A certificate is kept on submit when its trimmed name is not empty. */
  predicate HasName(c: Certificate) {
    Trim(c.name) != ""
  }

  /** The certificates submitted: the named ones, in their original order. */
  function NamedOnly(certificates: seq<Certificate>): (r: seq<Certificate>)
    ensures |r| <= |certificates|
    ensures forall k :: 0 <= k < |r| ==> !Blank(r[k].name)
  {
    var r := Filter(certificates, HasName);
    assert forall k :: 0 <= k < |r| ==> HasName(r[k]);
    forall k | 0 <= k < |r|
      ensures !Blank(r[k].name)
    {
      TrimEmptyIffBlank(r[k].name);
    }
    r
  }

  /** A certificate is submitted exactly when it is in the list and its name
      holds something other than whitespace. */
  lemma NamedOnlyMembers(certificates: seq<Certificate>, c: Certificate)
    ensures c in NamedOnly(certificates) <==> c in certificates && !Blank(c.name)
  {
    FilterMembership(certificates, HasName, c);
    TrimEmptyIffBlank(c.name);
  }

  /** Submitting keeps relative order: the named certificates of two lists
      placed one after the other are those of the first, then those of the second. */
  lemma NamedOnlyConcat(a: seq<Certificate>, b: seq<Certificate>)
    ensures NamedOnly(a + b) == NamedOnly(a) + NamedOnly(b)
  {
    FilterConcat(a, b, HasName);
  }

  /** The education form. */
  class EducationSetupPage {
    var education: string
    var fieldOfStudy: string
    var institution: string
    var certificates: seq<Certificate>

    /** The form starts with one blank certificate row. */
    constructor ()
      ensures education == "" && fieldOfStudy == "" && institution == ""
      ensures certificates == [BlankCertificate]
    {
      education := "";
      fieldOfStudy := "";
      institution := "";
      certificates := [BlankCertificate];
    }

    /** Appends one blank row. */
    method AddCertificate()
      modifies this
      ensures certificates == old(certificates) + [BlankCertificate]
      ensures |certificates| == |old(certificates)| + 1
      ensures education == old(education) && fieldOfStudy == old(fieldOfStudy)
      ensures institution == old(institution)
    {
      certificates := certificates + [BlankCertificate];
    }

    /** Deletes the row at `index`, keeping the others in order; an index with
        no row changes nothing. */
    method RemoveCertificate(index: int)
      modifies this
      ensures 0 <= index < |old(certificates)| ==>
        certificates == old(certificates)[..index] + old(certificates)[index + 1..]
      ensures !(0 <= index < |old(certificates)|) ==> certificates == old(certificates)
      ensures education == old(education) && fieldOfStudy == old(fieldOfStudy)
      ensures institution == old(institution)
    {
      RemoveIndexSpec(certificates, index);
      certificates := RemoveIndex(certificates, index);
    }

    /** Renames the row at `index` (a rendered row), keeping its file and every
        other row. */
    method ChangeName(index: nat, name: string)
      requires index < |certificates|
      modifies this
      ensures |certificates| == |old(certificates)|
      ensures certificates[index] == Certificate(name, old(certificates)[index].file)
      ensures forall k :: 0 <= k < |certificates| && k != index ==> certificates[k] == old(certificates)[k]
      ensures education == old(education) && fieldOfStudy == old(fieldOfStudy)
      ensures institution == old(institution)
    {
      certificates := certificates[index := certificates[index].(name := name)];
    }

    /** Attaches a file to the row at `index` (a rendered row), keeping its
        name and every other row. */
    method UploadFile(index: nat, file: string)
      requires index < |certificates|
      modifies this
      ensures |certificates| == |old(certificates)|
      ensures certificates[index] == Certificate(old(certificates)[index].name, Some(file))
      ensures forall k :: 0 <= k < |certificates| && k != index ==> certificates[k] == old(certificates)[k]
      ensures education == old(education) && fieldOfStudy == old(fieldOfStudy)
      ensures institution == old(institution)
    {
      certificates := certificates[index := certificates[index].(file := Some(file))];
    }

    /** The three fields and the named certificates. The education level,
        field of study and institution are `required`: while any of them is
        empty the browser blocks the submission and nothing is passed on. */
    method Submit() returns (slice: Option<Onboarding.EducationSlice>)
      ensures slice.Some? <==> education != "" && fieldOfStudy != "" && institution != ""
      ensures slice.Some? ==>
        slice.value == Onboarding.EducationSlice(education, fieldOfStudy, institution, NamedOnly(certificates))
    {
      if education == "" || fieldOfStudy == "" || institution == "" {
        return None;
      }
      slice := Some(Onboarding.EducationSlice(education, fieldOfStudy, institution, NamedOnly(certificates)));
    }
  }
}
