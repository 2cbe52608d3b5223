/**
 * The mobile mentorship screen: three canned mentors, each followed or not,
 * and a search box. The visible list is computed from the mentors and the
 * search text on every render and never written back.
 */
module MentorshipScreen {
  import JsText
  import Lists

  datatype Mentor = Mentor(id: string, name: string, expertise: string, isFollowing: bool)

  const MockMentors := [
    Mentor("1", "Dr. Smith", "AI & Machine Learning", false),
    Mentor("2", "Jane Doe", "Painting & Art", false),
    Mentor("3", "Coach Mike", "Fitness & Health", false)
  ]

  function HasId(id: string): Mentor -> bool {
    (m: Mentor) => m.id == id
  }

  /** `{ ...m, isFollowing: !m.isFollowing }`. */
  function Flip(m: Mentor): (r: Mentor)
    ensures r.id == m.id && r.name == m.name && r.expertise == m.expertise && r.isFollowing == !m.isFollowing
  {
    m.(isFollowing := !m.isFollowing)
  }

  /** Following and then unfollowing the same mentor restores the list. */
  lemma ToggleFollowTwice(mentors: seq<Mentor>, id: string)
    ensures Lists.MapWhere(Lists.MapWhere(mentors, HasId(id), Flip), HasId(id), Flip) == mentors
  {
    Lists.MapWhereTwice(mentors, HasId(id), Flip);
  }

  /** The search test: name or expertise includes the search text, ignoring ASCII case. */
  predicate Matches(search: string, m: Mentor) {
    var q := JsText.ToLower(search);
    JsText.Contains(JsText.ToLower(m.name), q) || JsText.Contains(JsText.ToLower(m.expertise), q)
  }

  /** The search test against a search text already in lower case. */
  function LowerMatcher(q: string): Mentor -> bool {
    (m: Mentor) => JsText.Contains(JsText.ToLower(m.name), q) || JsText.Contains(JsText.ToLower(m.expertise), q)
  }

  function Matcher(search: string): Mentor -> bool {
    LowerMatcher(JsText.ToLower(search))
  }

  /** `filteredMentors`: the mentors that match, and every mentor that matches. */
  function FilteredMentors(mentors: seq<Mentor>, search: string): (r: seq<Mentor>)
    ensures forall i :: 0 <= i < |r| ==> r[i] in mentors && Matches(search, r[i])
    ensures forall i :: 0 <= i < |mentors| && Matches(search, mentors[i]) ==> mentors[i] in r
  {
    Lists.FilterMultiset(mentors, Matcher(search));
    var r := Lists.Filter(mentors, Matcher(search));
    assert forall i :: 0 <= i < |r| ==> r[i] in multiset(mentors);
    r
  }

  /** An empty search shows every mentor, in order. */
  lemma EmptySearchShowsAll(mentors: seq<Mentor>)
    ensures FilteredMentors(mentors, "") == mentors
  {
    forall i | 0 <= i < |mentors|
      ensures Matches("", mentors[i])
    {
      JsText.ContainsEmpty(JsText.ToLower(mentors[i].name));
    }
    Lists.FilterAllPass(mentors, Matcher(""));
  }

  /** The search ignores ASCII case: a search and its lower-case form show the same mentors. */
  lemma SearchIgnoresCase(mentors: seq<Mentor>, search: string)
    ensures FilteredMentors(mentors, JsText.ToLower(search)) == FilteredMentors(mentors, search)
  {
    LowerTwice(search);
  }

  lemma LowerTwice(s: string)
    ensures JsText.ToLower(JsText.ToLower(s)) == JsText.ToLower(s)
  {
    assert forall i :: 0 <= i < |s| ==> JsText.LowerChar(JsText.LowerChar(s[i])) == JsText.LowerChar(s[i]);
  }

  class MentorshipView {
    var mentors: seq<Mentor>
    var search: string

    /** The canned mentors, none followed, and an empty search. */
    constructor ()
      ensures mentors == MockMentors && search == ""
      ensures forall i :: 0 <= i < |mentors| ==> !mentors[i].isFollowing
    {
      mentors := MockMentors;
      search := "";
    }

    /** Typing in the search box changes only the search text, never the mentors. */
    method SetSearch(text: string)
      modifies this
      ensures search == text && mentors == old(mentors)
    {
      search := text;
    }

    /** `toggleFollow`: the mentors with the id flip their follow flag; nobody else changes. */
    method ToggleFollow(id: string)
      modifies this
      ensures mentors == Lists.MapWhere(old(mentors), HasId(id), Flip)
      ensures forall i :: 0 <= i < |mentors| ==>
        mentors[i] == if old(mentors)[i].id == id then Flip(old(mentors)[i]) else old(mentors)[i]
      ensures search == old(search)
    {
      mentors := Lists.MapWhere(mentors, HasId(id), Flip);
    }

    /** The list on screen. */
    function Visible(): (r: seq<Mentor>)
      reads this
      ensures search == "" ==> r == mentors
      ensures forall i :: 0 <= i < |r| ==> r[i] in mentors && Matches(search, r[i])
    {
      EmptySearchShowsAll(mentors);
      FilteredMentors(mentors, search)
    }
  }
}
