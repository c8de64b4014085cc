/** The skills step of onboarding: two fixed lists of skills whose ratings
    are picked on a bar of eleven dots, 0 to 10. */
module SkillsForm {
  import opened UserModel
  import Onboarding

  /** The highest rating the bar offers. */
  const MaxRating: int := 10

  const InitialTechnicalSkills: seq<Skill> :=
    [Skill("Programming", 5), Skill("Data Analysis", 5), Skill("Development", 5)]

  const InitialSoftSkills: seq<Skill> :=
    [Skill("Communication", 5), Skill("Leadership", 5), Skill("Problem Solving", 5)]

  /** The values of the bar's dots, in order. */
  function RatingChoices(): (r: seq<int>)
    ensures |r| == MaxRating + 1
    ensures forall v :: v in r <==> 0 <= v <= MaxRating
  {
    var r := seq(MaxRating + 1, i => i);
    forall v
      ensures v in r <==> 0 <= v <= MaxRating
    {
      if 0 <= v <= MaxRating {
        assert r[v] == v;
      }
      if v in r {
        var i :| 0 <= i < |r| && r[i] == v;
      }
    }
    r
  }

  /** Every rating lies on the bar. */
  predicate RatingsInRange(skills: seq<Skill>) {
    forall k :: 0 <= k < |skills| ==> 0 <= skills[k].rating <= MaxRating
  }

  /** The list with the rating at `index` replaced; names, length and the
      other entries stay. */
  function WithRating(skills: seq<Skill>, index: nat, rating: int): (r: seq<Skill>)
    requires index < |skills|
    ensures |r| == |skills|
    ensures r[index] == Skill(skills[index].name, rating)
    ensures forall k :: 0 <= k < |skills| && k != index ==> r[k] == skills[k]
  {
    skills[index := skills[index].(rating := rating)]
  }

  /** Picking a dot keeps every rating on the bar. */
  lemma WithRatingInRange(skills: seq<Skill>, index: nat, rating: int)
    requires index < |skills| && RatingsInRange(skills) && rating in RatingChoices()
    ensures RatingsInRange(WithRating(skills, index, rating))
  {
  }

  /** The skills form. */
  class SkillsSetupPage {
    var technicalSkills: seq<Skill>
    var softSkills: seq<Skill>

    /** Every rating is one the bar offers. */
    predicate Valid()
      reads this
    {
      RatingsInRange(technicalSkills) && RatingsInRange(softSkills)
    }

    /** Three technical and three soft skills, each rated 5. */
    constructor ()
      ensures technicalSkills == InitialTechnicalSkills && softSkills == InitialSoftSkills
      ensures Valid()
    {
      technicalSkills := InitialTechnicalSkills;
      softSkills := InitialSoftSkills;
    }

    /** A dot picked on a rendered technical skill's bar. */
    method ChangeTechnicalSkill(index: nat, rating: int)
      requires Valid() && index < |technicalSkills| && rating in RatingChoices()
      modifies this
      ensures Valid()
      ensures technicalSkills == WithRating(old(technicalSkills), index, rating)
      ensures softSkills == old(softSkills)
    {
      WithRatingInRange(technicalSkills, index, rating);
      technicalSkills := WithRating(technicalSkills, index, rating);
    }

    /** A dot picked on a rendered soft skill's bar. */
    method ChangeSoftSkill(index: nat, rating: int)
      requires Valid() && index < |softSkills| && rating in RatingChoices()
      modifies this
      ensures Valid()
      ensures softSkills == WithRating(old(softSkills), index, rating)
      ensures technicalSkills == old(technicalSkills)
    {
      WithRatingInRange(softSkills, index, rating);
      softSkills := WithRating(softSkills, index, rating);
    }

    /** Both lists, passed on as they stand. */
    method Submit() returns (slice: Onboarding.SkillsSlice)
      ensures slice == Onboarding.SkillsSlice(technicalSkills, softSkills)
    {
      slice := Onboarding.SkillsSlice(technicalSkills, softSkills);
    }
  }
}
