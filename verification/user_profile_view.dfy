/**
 * The shared user-profile component: the profile on display, and an edit
 * form whose skills list is edited row by row and whose list fields are
 * comma-separated text. Saving and following update local state only.
 */
module UserProfileView {
  import opened Shared
  import JsText
  import Lists

  const CurrentUserId := "current-user-id"

  /** A skill row; `level` and `yearsOfExperience` are NaN (`None`) when their text does not parse. */
  datatype Skill = Skill(name: string, level: Option<int>, yearsOfExperience: Option<int>)

  datatype SocialLinks = SocialLinks(website: string, linkedin: string, github: string, twitter: string, instagram: string)

  /** The profile fields the component shows and edits. */
  datatype Profile = Profile(
    role: string, bio: string, skills: seq<Skill>, majors: seq<string>, mentorshipAreas: seq<string>,
    coachingSpecialties: seq<string>, availability: string, hourlyRate: string, socialLinks: SocialLinks,
    followers: seq<string>, following: seq<string>)

  /** The edit form: the list fields are comma-separated text. */
  datatype EditForm = EditForm(
    role: string, bio: string, skills: seq<Skill>, majors: string, mentorshipAreas: string,
    coachingSpecialties: string, availability: string, hourlyRate: string,
    website: string, linkedin: string, github: string, twitter: string, instagram: string)

  const BlankSkill := Skill("", Some(1), Some(0))

  /** `updateSkill`'s new row: `level` and `yearsOfExperience` go through `parseInt(value, 10)`, other fields take the text. */
  function SetSkillField(skill: Skill, field: string, value: string): (r: Skill)
    ensures field == "name" ==> r == skill.(name := value)
    ensures field == "level" ==> r == skill.(level := JsText.ParseInt(value))
    ensures field == "yearsOfExperience" ==> r == skill.(yearsOfExperience := JsText.ParseInt(value))
    ensures field !in {"name", "level", "yearsOfExperience"} ==> r == skill
  {
    match field
    case "name" => skill.(name := value)
    case "level" => skill.(level := JsText.ParseInt(value))
    case "yearsOfExperience" => skill.(yearsOfExperience := JsText.ParseInt(value))
    case _ => skill
  }

  /** A level typed as the decimal text of a number is stored as that number. */
  lemma TypedLevelIsKept(skill: Skill, level: int)
    ensures SetSkillField(skill, "level", JsText.IntToString(level)).level == Some(level)
  {
    JsText.ParseIntToString(level);
  }

  /** `splice(index, 1)` on a copy: a negative index counts from the end, and an index past the end removes nothing. */
  function SpliceOne<T>(s: seq<T>, index: int): (r: seq<T>)
    ensures 0 <= index < |s| ==> r == s[..index] + s[index + 1..]
    ensures index >= |s| ==> r == s
    ensures index < 0 && |s| > 0 ==> r == s[..SpliceStart(|s|, index)] + s[SpliceStart(|s|, index) + 1..]
    ensures |r| == if |s| > 0 && index < |s| then |s| - 1 else |s|
  {
    var start := SpliceStart(|s|, index);
    if start < |s| then s[..start] + s[start + 1..] else s
  }

  /** Where `splice` starts: a negative index counts back from the end, stopping at 0. */
  function SpliceStart(length: nat, index: int): (start: nat)
    ensures index >= 0 ==> start == index
    ensures index < 0 ==> start == if length + index < 0 then 0 else length + index
  {
    if index < 0 then (if length + index < 0 then 0 else length + index) else index
  }

  /** `handleSubmit`: the form's fields replace the profile's; list fields are split on ',' and trimmed. */
  function Submitted(p: Profile, f: EditForm): (r: Profile)
    ensures r.majors == JsText.SplitTrim(f.majors, ',')
    ensures r.mentorshipAreas == JsText.SplitTrim(f.mentorshipAreas, ',')
    ensures r.coachingSpecialties == JsText.SplitTrim(f.coachingSpecialties, ',')
    ensures r.role == f.role && r.bio == f.bio && r.skills == f.skills && r.availability == f.availability
    ensures r.socialLinks == SocialLinks(f.website, f.linkedin, f.github, f.twitter, f.instagram)
    ensures r.followers == p.followers && r.following == p.following
  {
    p.(role := f.role, bio := f.bio, skills := f.skills,
       majors := JsText.SplitTrim(f.majors, ','), mentorshipAreas := JsText.SplitTrim(f.mentorshipAreas, ','),
       coachingSpecialties := JsText.SplitTrim(f.coachingSpecialties, ','), availability := f.availability,
       hourlyRate := f.hourlyRate, socialLinks := SocialLinks(f.website, f.linkedin, f.github, f.twitter, f.instagram))
  }

  /** An emptied list field is saved as one empty entry, not as an empty list. */
  lemma EmptyFieldSavesOneBlank(p: Profile, f: EditForm)
    requires f.majors == ""
    ensures Submitted(p, f).majors == [""]
  {
    JsText.SplitTrimEmpty(',');
  }

  function IsNot(id: string): string -> bool {
    (x: string) => x != id
  }

  /** The names of the edit form's text inputs. */
  const FormInputs := {"role", "bio", "majors", "mentorshipAreas", "coachingSpecialties", "availability", "hourlyRate",
                       "website", "linkedin", "github", "twitter", "instagram"}

  /** `{...editFormData, [name]: value}` on the text inputs of the edit form. */
  function SetFormField(f: EditForm, name: string, value: string): (r: EditForm)
    ensures name == "role" ==> r == f.(role := value)
    ensures name == "bio" ==> r == f.(bio := value)
    ensures name == "majors" ==> r == f.(majors := value)
    ensures name == "mentorshipAreas" ==> r == f.(mentorshipAreas := value)
    ensures name == "coachingSpecialties" ==> r == f.(coachingSpecialties := value)
    ensures name == "availability" ==> r == f.(availability := value)
    ensures name == "hourlyRate" ==> r == f.(hourlyRate := value)
    ensures name == "website" ==> r == f.(website := value)
    ensures name == "linkedin" ==> r == f.(linkedin := value)
    ensures name == "github" ==> r == f.(github := value)
    ensures name == "twitter" ==> r == f.(twitter := value)
    ensures name == "instagram" ==> r == f.(instagram := value)
    ensures name !in FormInputs ==> r == f
  {
    match name
    case "role" => f.(role := value)
    case "bio" => f.(bio := value)
    case "majors" => f.(majors := value)
    case "mentorshipAreas" => f.(mentorshipAreas := value)
    case "coachingSpecialties" => f.(coachingSpecialties := value)
    case "availability" => f.(availability := value)
    case "hourlyRate" => f.(hourlyRate := value)
    case "website" => f.(website := value)
    case "linkedin" => f.(linkedin := value)
    case "github" => f.(github := value)
    case "twitter" => f.(twitter := value)
    case "instagram" => f.(instagram := value)
    case _ => f
  }

  /** Text typed into the bio, the role or a list input is what a submit then saves, the list split and trimmed. */
  lemma TypedFieldSaved(p: Profile, f: EditForm, v: string)
    ensures Submitted(p, SetFormField(f, "bio", v)).bio == v
    ensures Submitted(p, SetFormField(f, "role", v)).role == v
    ensures Submitted(p, SetFormField(f, "majors", v)).majors == JsText.SplitTrim(v, ',')
    ensures Submitted(p, SetFormField(f, "github", v)).socialLinks.github == v
  {
  }

  class ProfileView {
    var profile: Option<Profile>
    var isEditing: bool
    var editFormData: EditForm

    constructor (p: Profile, form: EditForm)
      ensures profile == Some(p) && !isEditing && editFormData == form
    {
      profile := Some(p);
      isEditing := false;
      editFormData := form;
    }

    /** `handleInputChange`: the named input of the edit form takes the text. */
    method InputChange(name: string, value: string)
      modifies this
      ensures editFormData == SetFormField(old(editFormData), name, value)
      ensures profile == old(profile) && isEditing == old(isEditing)
    {
      editFormData := SetFormField(editFormData, name, value);
    }

    /** `addSkill`: a blank skill row at the end. */
    method AddSkill()
      modifies this
      ensures editFormData == old(editFormData).(skills := old(editFormData.skills) + [BlankSkill])
      ensures profile == old(profile) && isEditing == old(isEditing)
    {
      editFormData := editFormData.(skills := editFormData.skills + [BlankSkill]);
    }

    /** `updateSkill`: one field of the row at `index`, and no other row. */
    method UpdateSkill(index: int, field: string, value: string)
      requires 0 <= index < |editFormData.skills|
      modifies this
      ensures |editFormData.skills| == |old(editFormData.skills)|
      ensures editFormData.skills[index] == SetSkillField(old(editFormData.skills[index]), field, value)
      ensures forall j :: 0 <= j < |editFormData.skills| && j != index ==> editFormData.skills[j] == old(editFormData.skills[j])
      ensures editFormData == old(editFormData).(skills := editFormData.skills)
      ensures profile == old(profile) && isEditing == old(isEditing)
    {
      var skills := editFormData.skills;
      skills := skills[index := SetSkillField(skills[index], field, value)];
      editFormData := editFormData.(skills := skills);
    }

    /** `removeSkill`: drops the row at `index` (`splice(index, 1)`). */
    method RemoveSkill(index: int)
      modifies this
      ensures editFormData == old(editFormData).(skills := SpliceOne(old(editFormData.skills), index))
      ensures profile == old(profile) && isEditing == old(isEditing)
    {
      editFormData := editFormData.(skills := SpliceOne(editFormData.skills, index));
    }

    /** `handleSubmit`, reachable once a profile is shown: the profile takes the form's values and editing ends. */
    method Submit()
      requires profile.Some?
      modifies this
      ensures profile == Some(Submitted(old(profile).value, old(editFormData))) && !isEditing
      ensures editFormData == old(editFormData)
    {
      profile := Some(Submitted(profile.value, editFormData));
      isEditing := false;
    }

    /** `followUser`: the current user is appended to the followers, even when already there. */
    method FollowUser()
      requires profile.Some?
      modifies this
      ensures profile == Some(old(profile).value.(followers := old(profile).value.followers + [CurrentUserId]))
      ensures isEditing == old(isEditing) && editFormData == old(editFormData)
    {
      profile := Some(profile.value.(followers := profile.value.followers + [CurrentUserId]));
    }

    /** `unfollowUser`: every occurrence of the current user leaves the followers. */
    method UnfollowUser()
      requires profile.Some?
      modifies this
      ensures profile == Some(old(profile).value.(followers := Lists.Filter(old(profile).value.followers, IsNot(CurrentUserId))))
      ensures isEditing == old(isEditing) && editFormData == old(editFormData)
    {
      profile := Some(profile.value.(followers := Lists.Filter(profile.value.followers, IsNot(CurrentUserId))));
    }
  }

  /** Following twice lists the current user twice, and a single unfollow removes both entries. */
  lemma {:induction false} FollowTwiceUnfollowOnce(followers: seq<string>)
    ensures Lists.Count(followers + [CurrentUserId, CurrentUserId], (x: string) => x == CurrentUserId)
      == Lists.Count(followers, (x: string) => x == CurrentUserId) + 2
    ensures Lists.Filter(followers + [CurrentUserId, CurrentUserId], IsNot(CurrentUserId)) == Lists.Filter(followers, IsNot(CurrentUserId))
  {
    var p := (x: string) => x == CurrentUserId;
    Lists.CountSplit(followers, [CurrentUserId, CurrentUserId], p);
    Lists.FilterAppend(followers, [CurrentUserId, CurrentUserId], IsNot(CurrentUserId));
    assert Lists.Filter([CurrentUserId, CurrentUserId], IsNot(CurrentUserId)) == [];
    assert Lists.Filter(followers, IsNot(CurrentUserId)) + [] == Lists.Filter(followers, IsNot(CurrentUserId));
  }
}
