/**
 * The profile controller: building a profile from the request body
 * (creating it, or overwriting the given fields of an existing one), adding
 * education, experience and achievement entries at the front of their lists,
 * and the follow graph kept in the `following` and `followers` lists of the
 * two profiles involved.
 */
module Profiles {
  import opened Shared
  import JsText
  import Lists

  // The error messages the handlers reply with.
  const ProfileNotFound := "Profile not found"
  const SelfFollow := "You cannot follow yourself"
  const OwnProfileNotFound := "Your profile not found"
  const AlreadyFollowing := "You are already following this user"
  const TargetProfileNotFound := "Target user profile not found"
  const NotFollowing := "You are not following this user"

  type Id = string

  /** A request-body entry (an education, experience or achievement item), kept as the client sent it. */
  type Entry = map<string, string>

  datatype Skill = Skill(name: string, level: int, yearsOfExperience: int)

  datatype SocialLinks = SocialLinks(
    website: Option<string>, linkedin: Option<string>, github: Option<string>,
    twitter: Option<string>, instagram: Option<string>)

  datatype Profile = Profile(
    user: Id, role: string, bio: Option<string>, skills: seq<Skill>, majors: seq<string>,
    education: seq<Entry>, experience: seq<Entry>, achievements: seq<Entry>,
    socialLinks: SocialLinks, mentorshipAreas: seq<string>, coachingSpecialties: seq<string>,
    availability: string, hourlyRate: int, followers: seq<Id>, following: seq<Id>, updatedAt: int)

  /** The body of a create-or-update request; an absent field is `None`. */
  datatype ProfileInput = ProfileInput(
    role: Option<string>, bio: Option<string>, availability: Option<string>, hourlyRate: Option<int>,
    skills: Option<seq<Skill>>, majors: Option<string>, mentorshipAreas: Option<string>,
    coachingSpecialties: Option<string>, website: Option<string>, linkedin: Option<string>,
    github: Option<string>, twitter: Option<string>, instagram: Option<string>)

  /** The fields the handler sets: `None` where the body's value is falsy. */
  datatype ProfileFields = ProfileFields(
    role: Option<string>, bio: Option<string>, availability: Option<string>, hourlyRate: Option<int>,
    skills: Option<seq<Skill>>, majors: Option<seq<string>>, mentorshipAreas: Option<seq<string>>,
    coachingSpecialties: Option<seq<string>>, socialLinks: SocialLinks)

  /** `if (body.x) fields.x = body.x` for a string: the empty string is falsy. */
  function Truthy(s: Option<string>): (r: Option<string>)
    ensures r.Some? <==> Present(s)
    ensures r.Some? ==> r.value == s.value
  {
    if Present(s) then s else None
  }

  /** A comma-separated list field: `body.x.split(',').map(x => x.trim())` when the body's value is truthy. */
  function ListField(s: Option<string>): (r: Option<seq<string>>)
    ensures r.Some? <==> Present(s)
    ensures r.Some? ==> |r.value| == |JsText.Split(s.value, ',')| >= 1
    ensures r.Some? ==> forall i :: 0 <= i < |r.value| ==> r.value[i] == JsText.Trim(JsText.Split(s.value, ',')[i])
  {
    if Present(s) then Some(JsText.SplitTrim(s.value, ',')) else None
  }

  /** A list of trimmed items without commas, joined with ',', is read back as the same list. */
  lemma ListFieldJoin(items: seq<string>)
    requires |items| >= 2 || (|items| == 1 && items[0] != "")
    requires forall i :: 0 <= i < |items| ==> ',' !in items[i] && JsText.Trim(items[i]) == items[i]
    ensures ListField(Some(JsText.Join(items, ','))) == Some(items)
  {
    var s := JsText.Join(items, ',');
    assert s != "" by {
      if |items| >= 2 {
        assert s == items[0] + [','] + JsText.Join(items[1..], ',');
      }
    }
    JsText.SplitJoin(items, ',');
    var r := JsText.SplitTrim(s, ',');
    assert |r| == |items|;
    forall i | 0 <= i < |items|
      ensures r[i] == items[i]
    {
      assert r[i] == JsText.Trim(items[i]);
    }
    assert r == items;
  }

  /**
   * The fields of the request: only truthy values are copied, the three
   * list fields are split and trimmed, and `socialLinks` is always a fresh
   * object holding just the links the body gives.
   */
  function BuildFields(input: ProfileInput): (f: ProfileFields)
    ensures f.role.Some? <==> Present(input.role)
    ensures f.bio.Some? <==> Present(input.bio)
    ensures f.availability.Some? <==> Present(input.availability)
    ensures f.hourlyRate.Some? <==> input.hourlyRate.Some? && input.hourlyRate.value != 0
    ensures f.skills == input.skills
    ensures f.majors == ListField(input.majors)
    ensures f.mentorshipAreas == ListField(input.mentorshipAreas)
    ensures f.coachingSpecialties == ListField(input.coachingSpecialties)
    ensures f.socialLinks.website.Some? <==> Present(input.website)
    ensures f.socialLinks.linkedin.Some? <==> Present(input.linkedin)
    ensures f.socialLinks.github.Some? <==> Present(input.github)
    ensures f.socialLinks.twitter.Some? <==> Present(input.twitter)
    ensures f.socialLinks.instagram.Some? <==> Present(input.instagram)
  {
    ProfileFields(
      Truthy(input.role), Truthy(input.bio), Truthy(input.availability),
      if input.hourlyRate.Some? && input.hourlyRate.value != 0 then input.hourlyRate else None,
      input.skills, ListField(input.majors), ListField(input.mentorshipAreas),
      ListField(input.coachingSpecialties),
      SocialLinks(Truthy(input.website), Truthy(input.linkedin), Truthy(input.github),
                  Truthy(input.twitter), Truthy(input.instagram)))
  }

  /**
   * `findOneAndUpdate({user}, {$set: fields})` on an existing profile: every
   * field given replaces the stored one, `socialLinks` is replaced as a whole,
   * and nothing else changes (the update runs neither the validators nor the
   * pre-save hook, so `updatedAt` stays).
   */
  function ApplyFields(p: Profile, f: ProfileFields): (q: Profile)
    ensures q.role == f.role.GetOr(p.role) && q.bio == (if f.bio.Some? then f.bio else p.bio)
    ensures q.availability == f.availability.GetOr(p.availability)
    ensures q.hourlyRate == f.hourlyRate.GetOr(p.hourlyRate) && q.skills == f.skills.GetOr(p.skills)
    ensures q.majors == f.majors.GetOr(p.majors)
    ensures q.mentorshipAreas == f.mentorshipAreas.GetOr(p.mentorshipAreas)
    ensures q.coachingSpecialties == f.coachingSpecialties.GetOr(p.coachingSpecialties)
    ensures q.socialLinks == f.socialLinks
    ensures q.user == p.user && q.education == p.education && q.experience == p.experience
    ensures q.achievements == p.achievements && q.updatedAt == p.updatedAt
    ensures q.followers == p.followers && q.following == p.following
  {
    p.(role := f.role.GetOr(p.role),
       bio := if f.bio.Some? then f.bio else p.bio,
       availability := f.availability.GetOr(p.availability),
       hourlyRate := f.hourlyRate.GetOr(p.hourlyRate),
       skills := f.skills.GetOr(p.skills),
       majors := f.majors.GetOr(p.majors),
       mentorshipAreas := f.mentorshipAreas.GetOr(p.mentorshipAreas),
       coachingSpecialties := f.coachingSpecialties.GetOr(p.coachingSpecialties),
       socialLinks := f.socialLinks)
  }

  /** Sending the same update twice leaves the profile as one update did. */
  lemma ApplyFieldsIdempotent(p: Profile, f: ProfileFields)
    ensures ApplyFields(ApplyFields(p, f), f) == ApplyFields(p, f)
  {
  }

  /** A link the update does not give is erased, even if the profile had it. */
  lemma UpdateDropsOmittedLinks(p: Profile, input: ProfileInput)
    requires !Present(input.website)
    ensures ApplyFields(p, BuildFields(input)).socialLinks.website.None?
  {
  }

  predicate SkillOk(s: Skill) {
    s.name != "" && 1 <= s.level <= 5
  }

  /** The schema's checks on a new profile: the two enumerations, the bio's length, and each skill. */
  predicate ProfileOk(p: Profile) {
    (p.role == "student" || p.role == "mentor" || p.role == "coach")
    && (p.bio.Some? ==> |p.bio.value| <= 500)
    && (p.availability == "available" || p.availability == "limited" || p.availability == "unavailable")
    && forall i :: 0 <= i < |p.skills| ==> SkillOk(p.skills[i])
  }

  /**
   * `new Profile(fields).save()`: the schema's defaults fill the fields not
   * given (role "student", availability "limited", rate 0, empty lists), and
   * the document is saved only if it validates.
   */
  function NewProfile(user: Id, f: ProfileFields, now: int): (r: Validated<Profile>)
    ensures r.Valid? ==> ProfileOk(r.doc)
    ensures r.Valid? ==> r.doc.user == user && r.doc.followers == [] && r.doc.following == []
    ensures r.Valid? ==> r.doc.education == [] && r.doc.experience == [] && r.doc.achievements == []
    ensures r.Valid? ==> r.doc.updatedAt == now
    ensures r.Valid? <==> ProfileOk(ApplyFields(Blank(user, now), f))
    ensures r.Valid? ==> r.doc == ApplyFields(Blank(user, now), f)
  {
    var p := ApplyFields(Blank(user, now), f);
    if !(p.role == "student" || p.role == "mentor" || p.role == "coach") then Invalid(NotInEnum("role"))
    else if p.bio.Some? && |p.bio.value| > 500 then Invalid(HookError("bio is longer than the maximum allowed length (500)"))
    else if !(p.availability == "available" || p.availability == "limited" || p.availability == "unavailable") then
      Invalid(NotInEnum("availability"))
    else if exists i :: 0 <= i < |p.skills| && p.skills[i].name == "" then Invalid(Missing("skills.name"))
    else if !ProfileOk(p) then Invalid(HookError("skills.level is outside 1..5"))
    else Valid(p)
  }

  /** A profile holding only the schema's defaults. */
  function Blank(user: Id, now: int): (p: Profile)
    ensures p.user == user && p.role == "student" && p.availability == "limited" && p.hourlyRate == 0
    ensures p.bio.None? && p.skills == [] && p.majors == [] && p.followers == [] && p.following == []
  {
    Profile(user, "student", None, [], [], [], [], [], SocialLinks(None, None, None, None, None),
            [], [], "limited", 0, [], [], now)
  }

  /** A request with no truthy field creates the default profile. */
  lemma EmptyRequestCreatesDefaults(user: Id, now: int)
    ensures var r := NewProfile(user, BuildFields(ProfileInput(None, None, None, None, None, None, None, None,
                                                                None, None, None, None, None)), now);
      r.Valid? && r.doc.role == "student" && r.doc.availability == "limited" && r.doc.hourlyRate == 0
      && r.doc.majors == [] && r.doc.skills == []
  {
  }

  /** The list an entry is added to. */
  datatype Section = Education | Experience | Achievements

  /** `profile[section].unshift(entry)` followed by `save()`, whose hook stamps `updatedAt`. */
  function Unshift(p: Profile, section: Section, entry: Entry, now: int): (q: Profile)
    ensures section == Education ==> q.education == [entry] + p.education
    ensures section == Experience ==> q.experience == [entry] + p.experience
    ensures section == Achievements ==> q.achievements == [entry] + p.achievements
    ensures section != Education ==> q.education == p.education
    ensures section != Experience ==> q.experience == p.experience
    ensures section != Achievements ==> q.achievements == p.achievements
    ensures q == p.(education := q.education, experience := q.experience, achievements := q.achievements,
                    updatedAt := now)
  {
    match section
    case Education => p.(education := [entry] + p.education, updatedAt := now)
    case Experience => p.(experience := [entry] + p.experience, updatedAt := now)
    case Achievements => p.(achievements := [entry] + p.achievements, updatedAt := now)
  }

  /** The newest entry comes first: two additions leave the later one at the head. */
  lemma NewestFirst(p: Profile, section: Section, e1: Entry, e2: Entry, t1: int, t2: int)
    ensures var q := Unshift(Unshift(p, section, e1, t1), section, e2, t2);
      match section
      case Education => q.education[..2] == [e2, e1] && q.education[2..] == p.education
      case Experience => q.experience[..2] == [e2, e1] && q.experience[2..] == p.experience
      case Achievements => q.achievements[..2] == [e2, e1] && q.achievements[2..] == p.achievements
  {
  }

  /** Each profile is stored under its own user. */
  predicate Keyed(ps: map<Id, Profile>) {
    forall u :: u in ps ==> ps[u].user == u
  }

  /** Each profile's two lists hold profiled users, none twice, and nobody follows themself. */
  predicate ListsOk(ps: map<Id, Profile>) {
    forall u :: u in ps ==>
      Lists.Distinct(ps[u].following) && Lists.Distinct(ps[u].followers) && u !in ps[u].following
      && (forall v :: v in ps[u].following ==> v in ps)
      && (forall v :: v in ps[u].followers ==> v in ps)
  }

  /** `v` is in `u`'s following exactly when `u` is in `v`'s followers. */
  predicate Mutual(ps: map<Id, Profile>) {
    forall u, v :: u in ps && v in ps ==> (v in ps[u].following <==> u in ps[v].followers)
  }

  predicate GraphOk(ps: map<Id, Profile>) {
    Keyed(ps) && ListsOk(ps) && Mutual(ps)
  }

  /** A successful follow: `a` appends `b` to its following, `b` appends `a` to its followers, both are saved. */
  function Follow(ps: map<Id, Profile>, a: Id, b: Id, now: int): (r: map<Id, Profile>)
    requires GraphOk(ps) && a in ps && b in ps && a != b && b !in ps[a].following
    ensures GraphOk(r) && r.Keys == ps.Keys
    ensures r[a] == ps[a].(following := ps[a].following + [b], updatedAt := now)
    ensures r[b] == ps[b].(followers := ps[b].followers + [a], updatedAt := now)
    ensures forall u :: u in ps && u != a && u != b ==> r[u] == ps[u]
  {
    var pa := ps[a].(following := ps[a].following + [b], updatedAt := now);
    var pb := ps[b].(followers := ps[b].followers + [a], updatedAt := now);
    var r := ps[a := pa][b := pb];
    assert a !in ps[b].followers;
    FollowKeepsLists(ps, a, b, r);
    FollowKeepsMutual(ps, a, b, r);
    r
  }

  lemma FollowKeepsLists(ps: map<Id, Profile>, a: Id, b: Id, r: map<Id, Profile>)
    requires GraphOk(ps) && a in ps && b in ps && a != b && b !in ps[a].following && a !in ps[b].followers
    requires r.Keys == ps.Keys
    requires r[a] == ps[a].(following := ps[a].following + [b], updatedAt := r[a].updatedAt)
    requires r[b] == ps[b].(followers := ps[b].followers + [a], updatedAt := r[b].updatedAt)
    requires forall u :: u in ps && u != a && u != b ==> r[u] == ps[u]
    ensures Keyed(r) && ListsOk(r)
  {
    forall u | u in r
      ensures Lists.Distinct(r[u].following) && Lists.Distinct(r[u].followers) && u !in r[u].following
      ensures forall v :: v in r[u].following ==> v in r
      ensures forall v :: v in r[u].followers ==> v in r
    {
      if u == a {
        AppendDistinct(ps[a].following, b);
      } else if u == b {
        AppendDistinct(ps[b].followers, a);
      }
    }
  }

  lemma FollowKeepsMutual(ps: map<Id, Profile>, a: Id, b: Id, r: map<Id, Profile>)
    requires GraphOk(ps) && a in ps && b in ps && a != b
    requires r.Keys == ps.Keys
    requires r[a] == ps[a].(following := ps[a].following + [b], updatedAt := r[a].updatedAt)
    requires r[b] == ps[b].(followers := ps[b].followers + [a], updatedAt := r[b].updatedAt)
    requires forall u :: u in ps && u != a && u != b ==> r[u] == ps[u]
    ensures Mutual(r)
  {
    forall u, v | u in r && v in r
      ensures v in r[u].following <==> u in r[v].followers
    {
      assert v in ps[u].following <==> u in ps[v].followers;
      assert v in r[u].following <==> v in ps[u].following || (u == a && v == b) by {
        if u == a {
          assert r[u].following == ps[u].following + [b];
        } else if u != b {
          assert r[u] == ps[u];
        }
      }
      assert u in r[v].followers <==> u in ps[v].followers || (u == a && v == b) by {
        if v == b {
          assert r[v].followers == ps[v].followers + [a];
        } else if v != a {
          assert r[v] == ps[v];
        }
      }
    }
  }

  lemma AppendDistinct(s: seq<Id>, x: Id)
    requires Lists.Distinct(s) && x !in s
    ensures Lists.Distinct(s + [x])
  {
  }

  /** A successful unfollow: every `b` leaves `a`'s following and every `a` leaves `b`'s followers. */
  function Unfollow(ps: map<Id, Profile>, a: Id, b: Id, now: int): (r: map<Id, Profile>)
    requires GraphOk(ps) && a in ps && b in ps && a != b
    ensures GraphOk(r) && r.Keys == ps.Keys
    ensures r[a] == ps[a].(following := Lists.Without(ps[a].following, b), updatedAt := now)
    ensures r[b] == ps[b].(followers := Lists.Without(ps[b].followers, a), updatedAt := now)
    ensures b !in r[a].following && a !in r[b].followers
    ensures forall u :: u in ps && u != a && u != b ==> r[u] == ps[u]
  {
    var pa := ps[a].(following := Lists.Without(ps[a].following, b), updatedAt := now);
    var pb := ps[b].(followers := Lists.Without(ps[b].followers, a), updatedAt := now);
    var r := ps[a := pa][b := pb];
    UnfollowKeepsGraph(ps, a, b, r);
    r
  }

  lemma UnfollowKeepsGraph(ps: map<Id, Profile>, a: Id, b: Id, r: map<Id, Profile>)
    requires GraphOk(ps) && a in ps && b in ps && a != b
    requires r.Keys == ps.Keys
    requires r[a] == ps[a].(following := Lists.Without(ps[a].following, b), updatedAt := r[a].updatedAt)
    requires r[b] == ps[b].(followers := Lists.Without(ps[b].followers, a), updatedAt := r[b].updatedAt)
    requires forall u :: u in ps && u != a && u != b ==> r[u] == ps[u]
    ensures GraphOk(r)
  {
    UnfollowKeepsLists(ps, a, b, r);
    UnfollowKeepsMutual(ps, a, b, r);
  }

  lemma UnfollowKeepsLists(ps: map<Id, Profile>, a: Id, b: Id, r: map<Id, Profile>)
    requires GraphOk(ps) && a in ps && b in ps && a != b
    requires r.Keys == ps.Keys
    requires r[a] == ps[a].(following := Lists.Without(ps[a].following, b), updatedAt := r[a].updatedAt)
    requires r[b] == ps[b].(followers := Lists.Without(ps[b].followers, a), updatedAt := r[b].updatedAt)
    requires forall u :: u in ps && u != a && u != b ==> r[u] == ps[u]
    ensures Keyed(r) && ListsOk(r)
  {
    forall u | u in r
      ensures Lists.Distinct(r[u].following) && Lists.Distinct(r[u].followers) && u !in r[u].following
      ensures forall v :: v in r[u].following ==> v in r
      ensures forall v :: v in r[u].followers ==> v in r
    {
      if u == a {
        assert r[a].followers == ps[a].followers;
      } else if u == b {
        assert r[b].following == ps[b].following;
      } else {
        assert r[u] == ps[u];
      }
      EntryFromSublists(ps, r, u);
    }
  }

  /** A profile whose two lists only lost entries keeps the list invariant. */
  lemma EntryFromSublists(ps: map<Id, Profile>, r: map<Id, Profile>, u: Id)
    requires ListsOk(ps) && u in ps && r.Keys == ps.Keys
    requires Lists.Distinct(r[u].following) && Lists.Distinct(r[u].followers)
    requires forall v :: v in r[u].following ==> v in ps[u].following
    requires forall v :: v in r[u].followers ==> v in ps[u].followers
    ensures u !in r[u].following
    ensures forall v :: v in r[u].following ==> v in r
    ensures forall v :: v in r[u].followers ==> v in r
  {
  }

  lemma UnfollowKeepsMutual(ps: map<Id, Profile>, a: Id, b: Id, r: map<Id, Profile>)
    requires GraphOk(ps) && a in ps && b in ps && a != b
    requires r.Keys == ps.Keys
    requires r[a] == ps[a].(following := Lists.Without(ps[a].following, b), updatedAt := r[a].updatedAt)
    requires r[b] == ps[b].(followers := Lists.Without(ps[b].followers, a), updatedAt := r[b].updatedAt)
    requires forall u :: u in ps && u != a && u != b ==> r[u] == ps[u]
    ensures Mutual(r)
  {
    forall u, v | u in r && v in r
      ensures v in r[u].following <==> u in r[v].followers
    {
      assert v in ps[u].following <==> u in ps[v].followers;
      if u == a {
        Lists.WithoutMembers(ps[a].following, b, v);
      }
      if v == b {
        Lists.WithoutMembers(ps[b].followers, a, u);
      }
    }
  }

  /** Unfollowing right after a follow restores both lists; only the save times differ. */
  lemma UnfollowUndoesFollow(ps: map<Id, Profile>, a: Id, b: Id, t1: int, t2: int)
    requires GraphOk(ps) && a in ps && b in ps && a != b && b !in ps[a].following
    ensures Unfollow(Follow(ps, a, b, t1), a, b, t2) == ps[a := ps[a].(updatedAt := t2)][b := ps[b].(updatedAt := t2)]
  {
    assert a !in ps[b].followers;
    var f := Follow(ps, a, b, t1);
    var r := Unfollow(f, a, b, t2);
    Lists.WithoutAppend(ps[a].following, b);
    Lists.WithoutAppend(ps[b].followers, a);
    TwoChanged(ps, r, a, b);
  }

  /** A map with the same keys that differs from `ps` only at `a` and `b` is `ps` updated at those two. */
  lemma TwoChanged<K, V>(ps: map<K, V>, r: map<K, V>, a: K, b: K)
    requires r.Keys == ps.Keys && a in ps && b in ps
    requires forall u :: u in ps && u != a && u != b ==> r[u] == ps[u]
    ensures r == ps[a := r[a]][b := r[b]]
  {
  }

  /** Replacing a profile by one with the same user and the same two lists keeps the graph. */
  lemma ReplaceKeepsGraph(ps: map<Id, Profile>, u: Id, p: Profile)
    requires GraphOk(ps) && u in ps && p.user == u
    requires p.following == ps[u].following && p.followers == ps[u].followers
    ensures GraphOk(ps[u := p])
  {
    var r := ps[u := p];
    assert forall v :: v in r ==> r[v].following == ps[v].following && r[v].followers == ps[v].followers;
  }

  /** Adding a new user's profile with both lists empty keeps the graph. */
  lemma InsertKeepsGraph(ps: map<Id, Profile>, u: Id, p: Profile)
    requires GraphOk(ps) && u !in ps && p.user == u && p.following == [] && p.followers == []
    ensures GraphOk(ps[u := p])
  {
    assert forall v :: v in ps ==> u !in ps[v].following && u !in ps[v].followers;
  }

  /** The profiles collection. */
  class ProfileDb {
    var profiles: map<Id, Profile>

    ghost predicate Valid()
      reads this
    {
      GraphOk(profiles)
    }

    constructor ()
      ensures Valid() && profiles == map[]
    {
      profiles := map[];
    }
  }

  /**
   * POST /api/profile: update the caller's profile with the fields given
   * (200), or create it (201); a new profile that fails validation is a
   * server error.
   */
  method CreateOrUpdateProfile(db: ProfileDb, caller: Id, input: ProfileInput, now: int) returns (reply: Reply<Profile>)
    requires db.Valid()
    modifies db
    ensures db.Valid()
    ensures caller in old(db.profiles) ==>
      reply == Success(200, ApplyFields(old(db.profiles[caller]), BuildFields(input)))
      && db.profiles == old(db.profiles)[caller := reply.body]
    ensures caller !in old(db.profiles) && NewProfile(caller, BuildFields(input), now).Valid? ==>
      reply == Success(201, NewProfile(caller, BuildFields(input), now).doc)
      && db.profiles == old(db.profiles)[caller := reply.body]
    ensures caller !in old(db.profiles) && NewProfile(caller, BuildFields(input), now).Invalid? ==>
      reply == ServerError() && unchanged(db)
  {
    var fields := BuildFields(input);
    if caller in db.profiles {
      var p := ApplyFields(db.profiles[caller], fields);
      ReplaceKeepsGraph(db.profiles, caller, p);
      db.profiles := db.profiles[caller := p];
      return Success(200, p);
    }
    var created := NewProfile(caller, fields, now);
    if created.Invalid? {
      return ServerError();
    }
    InsertKeepsGraph(db.profiles, caller, created.doc);
    db.profiles := db.profiles[caller := created.doc];
    return Success(201, created.doc);
  }

  /** PUT /api/profile/education, /experience and /achievement: the entry goes to the front of its list. */
  method AddEntry(db: ProfileDb, caller: Id, section: Section, entry: Entry, now: int) returns (reply: Reply<Profile>)
    requires db.Valid()
    modifies db
    ensures db.Valid()
    ensures caller !in old(db.profiles) ==> reply == Failure(404, ProfileNotFound) && unchanged(db)
    ensures caller in old(db.profiles) ==>
      reply == Success(200, Unshift(old(db.profiles[caller]), section, entry, now))
      && db.profiles == old(db.profiles)[caller := reply.body]
  {
    if caller !in db.profiles {
      return Failure(404, ProfileNotFound);
    }
    var p := Unshift(db.profiles[caller], section, entry, now);
    db.profiles := db.profiles[caller := p];
    return Success(200, p);
  }

  /** PUT /api/profile/follow/:userId. */
  method FollowUser(db: ProfileDb, caller: Id, target: Id, now: int) returns (reply: Reply<Profile>)
    requires db.Valid()
    modifies db
    ensures db.Valid()
    ensures target == caller ==> reply == Failure(400, SelfFollow) && unchanged(db)
    ensures target != caller && caller !in old(db.profiles) ==>
      reply == Failure(404, OwnProfileNotFound) && unchanged(db)
    ensures target != caller && caller in old(db.profiles) && target in old(db.profiles[caller].following) ==>
      reply == Failure(400, AlreadyFollowing) && unchanged(db)
    ensures target != caller && caller in old(db.profiles) && target !in old(db.profiles[caller].following)
            && target !in old(db.profiles) ==>
      reply == Failure(404, TargetProfileNotFound) && unchanged(db)
    ensures reply.Success? <==>
      target != caller && caller in old(db.profiles) && target in old(db.profiles)
      && target !in old(db.profiles[caller].following)
    ensures reply.Success? ==>
      db.profiles == Follow(old(db.profiles), caller, target, now) && reply == Success(200, db.profiles[caller])
  {
    if target == caller {
      return Failure(400, SelfFollow);
    }
    if caller !in db.profiles {
      return Failure(404, OwnProfileNotFound);
    }
    if target in db.profiles[caller].following {
      return Failure(400, AlreadyFollowing);
    }
    if target !in db.profiles {
      return Failure(404, TargetProfileNotFound);
    }
    db.profiles := Follow(db.profiles, caller, target, now);
    return Success(200, db.profiles[caller]);
  }

  /** PUT /api/profile/unfollow/:userId. */
  method UnfollowUser(db: ProfileDb, caller: Id, target: Id, now: int) returns (reply: Reply<Profile>)
    requires db.Valid()
    modifies db
    ensures db.Valid()
    ensures caller !in old(db.profiles) ==> reply == Failure(404, OwnProfileNotFound) && unchanged(db)
    ensures caller in old(db.profiles) && target !in old(db.profiles[caller].following) ==>
      reply == Failure(400, NotFollowing) && unchanged(db)
    ensures reply.Success? <==> caller in old(db.profiles) && target in old(db.profiles[caller].following)
    ensures reply.Success? ==>
      target != caller && target in old(db.profiles)
      && db.profiles == Unfollow(old(db.profiles), caller, target, now) && reply == Success(200, db.profiles[caller])
  {
    if caller !in db.profiles {
      return Failure(404, OwnProfileNotFound);
    }
    if target !in db.profiles[caller].following {
      return Failure(400, NotFollowing);
    }
    // The 404 for a missing target profile cannot fire: `following` holds only profiled users.
    db.profiles := Unfollow(db.profiles, caller, target, now);
    return Success(200, db.profiles[caller]);
  }
}
