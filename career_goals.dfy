/** The career-goals step of onboarding: a list of desired roles edited by
    add and remove, a set of preferred industries edited by toggling, and
    two free-text fields, handed to the shell on submit. */
module CareerGoalsForm {
  import opened Common
  import opened Lists
  import Onboarding

  /** The industry tags offered for toggling. */
  const Industries: seq<string> := ["tech", "education", "finance", "healthcare", "manufacturing", "retail"]

  /** The list after toggling `x`: removed when present, appended at the end
      when absent. */
  function Toggle(s: seq<string>, x: string): (r: seq<string>)
    ensures x in r <==> x !in s
    ensures forall y :: y != x ==> (y in r <==> y in s)
    ensures NoDuplicates(s) ==> NoDuplicates(r)
  {
    if x in s then
      FilterOutMembershipAll(s, x);
      FilterOutNoDuplicates(s, x);
      FilterOut(s, x)
    else
      s + [x]
  }

  /** Toggling an absent industry twice restores the list exactly. */
  lemma ToggleTwiceAbsent(s: seq<string>, x: string)
    requires x !in s
    ensures Toggle(Toggle(s, x), x) == s
  {
    assert Toggle(s, x) == s + [x];
    FilterOutConcat(s, [x], x);
    FilterOutAbsent(s, x);
    assert FilterOut([x], x) == [];
  }

  /** Toggling a present industry twice moves it to the end of the list. */
  lemma ToggleTwicePresent(s: seq<string>, x: string)
    requires x in s
    ensures Toggle(Toggle(s, x), x) == FilterOut(s, x) + [x]
  {
    FilterOutMembershipAll(s, x);
  }

  /** The career-goals form. */
  class CareerGoalsPage {
    var desiredRoles: seq<string>
    var newRole: string
    var industryPreference: seq<string>
    var timeline: string
    var specificGoal: string

    /** Neither list ever holds the same entry twice. */
    predicate Valid()
      reads this
    {
      NoDuplicates(desiredRoles) && NoDuplicates(industryPreference)
    }

    constructor ()
      ensures Valid()
      ensures desiredRoles == [] && newRole == "" && industryPreference == []
      ensures timeline == "" && specificGoal == ""
    {
      desiredRoles := [];
      newRole := "";
      industryPreference := [];
      timeline := "";
      specificGoal := "";
    }

    /** Typing in the role input. */
    method EditNewRole(text: string)
      modifies this
      ensures newRole == text
      ensures desiredRoles == old(desiredRoles) && industryPreference == old(industryPreference)
      ensures timeline == old(timeline) && specificGoal == old(specificGoal)
    {
      newRole := text;
    }

    method EditTimeline(text: string)
      modifies this
      ensures timeline == text
      ensures desiredRoles == old(desiredRoles) && newRole == old(newRole)
      ensures industryPreference == old(industryPreference) && specificGoal == old(specificGoal)
    {
      timeline := text;
    }

    method EditSpecificGoal(text: string)
      modifies this
      ensures specificGoal == text
      ensures desiredRoles == old(desiredRoles) && newRole == old(newRole)
      ensures industryPreference == old(industryPreference) && timeline == old(timeline)
    {
      specificGoal := text;
    }

    /** Adds the typed role when it is non-empty and not yet listed, appending
        it and clearing the input; otherwise nothing changes. */
    method AddRole()
      requires Valid()
      modifies this
      ensures Valid()
      ensures old(newRole) != "" && old(newRole) !in old(desiredRoles) ==>
        desiredRoles == old(desiredRoles) + [old(newRole)] && newRole == ""
      ensures old(newRole) == "" || old(newRole) in old(desiredRoles) ==>
        desiredRoles == old(desiredRoles) && newRole == old(newRole)
      ensures industryPreference == old(industryPreference)
      ensures timeline == old(timeline) && specificGoal == old(specificGoal)
    {
      if newRole != "" && newRole !in desiredRoles {
        desiredRoles := desiredRoles + [newRole];
        newRole := "";
      }
    }

    /** Removes every occurrence of the role, keeping the others in order. */
    method RemoveRole(role: string)
      requires Valid()
      modifies this
      ensures Valid()
      ensures desiredRoles == FilterOut(old(desiredRoles), role)
      ensures forall r :: r in desiredRoles <==> r in old(desiredRoles) && r != role
      ensures newRole == old(newRole) && industryPreference == old(industryPreference)
      ensures timeline == old(timeline) && specificGoal == old(specificGoal)
    {
      FilterOutMembershipAll(desiredRoles, role);
      FilterOutNoDuplicates(desiredRoles, role);
      desiredRoles := FilterOut(desiredRoles, role);
    }

    /** Flips the membership of one industry and of no other. */
    method ToggleIndustry(industry: string)
      requires Valid()
      modifies this
      ensures Valid()
      ensures industryPreference == Toggle(old(industryPreference), industry)
      ensures industry in industryPreference <==> industry !in old(industryPreference)
      ensures desiredRoles == old(desiredRoles) && newRole == old(newRole)
      ensures timeline == old(timeline) && specificGoal == old(specificGoal)
    {
      industryPreference := Toggle(industryPreference, industry);
    }

    /** The four fields, passed on as they stand. The timeline and the
        specific goal are `required`: while either is empty the browser blocks
        the submission and nothing is passed on. */
    method Submit() returns (goals: Option<Onboarding.GoalsSlice>)
      ensures goals.Some? <==> timeline != "" && specificGoal != ""
      ensures goals.Some? ==>
        goals.value == Onboarding.GoalsSlice(desiredRoles, industryPreference, timeline, specificGoal)
    {
      if timeline == "" || specificGoal == "" {
        return None;
      }
      goals := Some(Onboarding.GoalsSlice(desiredRoles, industryPreference, timeline, specificGoal));
    }
  }
}
