/**
 * The web settings page: committed settings and an edited copy of them (the
 * draft). The profile inputs and the toggle buttons write into the draft;
 * Save makes the draft the committed settings and Cancel throws it away.
 * Each toggle button is drawn from the committed section and writes the
 * negation of the committed value, whatever the draft holds. The theme tab
 * belongs to the theme context and is left out.
 */
module SettingsPage {
  import JsObject

  /** The profile section; the avatar and time zone are shown but never edited. */
  datatype Profile = Profile(name: string, email: string, avatar: string, timezone: string, bio: string)

  /** The whole settings object; the three toggle sections are plain objects, as their keys are iterated. */
  datatype Settings = Settings(profile: Profile, preferences: JsObject.Object, privacy: JsObject.Object,
                               integrations: JsObject.Object)

  /** The three sections drawn as toggle buttons. */
  datatype Group = Preferences | Privacy | Integrations

  /** The editable profile inputs. */
  datatype ProfileField = Name | Email | Bio

  const InitialSettings := Settings(
    Profile("John Doe", "john.doe@example.com", "https://via.placeholder.com/100", "America/New_York",
            "Full-stack developer passionate about learning and building great software."),
    map["darkMode" := JsObject.Bool(true), "emailNotifications" := JsObject.Bool(true),
        "pushNotifications" := JsObject.Bool(false), "soundEffects" := JsObject.Bool(true),
        "autoStartPomodoro" := JsObject.Bool(false), "language" := JsObject.Str("en"),
        "showTaskEstimates" := JsObject.Bool(true)],
    map["profileVisibility" := JsObject.Str("public"), "showProgress" := JsObject.Bool(true),
        "showAchievements" := JsObject.Bool(true), "shareActivity" := JsObject.Bool(true)],
    map["github" := JsObject.Bool(true), "gitlab" := JsObject.Bool(false),
        "slack" := JsObject.Bool(true), "discord" := JsObject.Bool(false)])

  function Section(s: Settings, g: Group): JsObject.Object {
    match g
    case Preferences => s.preferences
    case Privacy => s.privacy
    case Integrations => s.integrations
  }

  /** `{...s, [group]: o}`: one section replaced, the profile and the other sections kept. */
  function WithSection(s: Settings, g: Group, o: JsObject.Object): (r: Settings)
    ensures Section(r, g) == o && r.profile == s.profile
    ensures forall h :: h != g ==> Section(r, h) == Section(s, h)
  {
    match g
    case Preferences => s.(preferences := o)
    case Privacy => s.(privacy := o)
    case Integrations => s.(integrations := o)
  }

  /** JavaScript's `!value`: always a boolean, true exactly for a falsy value. */
  function Not(v: JsObject.Value): (r: JsObject.Value)
    ensures r.Bool? && (r.b <==> !JsObject.Truthy(v))
  {
    JsObject.Bool(!JsObject.Truthy(v))
  }

  /** Negating twice gives the value back only for a boolean; a text entry such as 'en' becomes `true`. */
  lemma NotTwice(v: JsObject.Value)
    ensures Not(Not(v)) == v <==> v.Bool?
    ensures Not(Not(v)) == JsObject.Bool(JsObject.Truthy(v))
  {
  }

  /**
   * The toggle of `key` in one section: the draft's section gets the
   * negation of the COMMITTED value at that key; nothing else changes.
   */
  function Toggled(draft: Settings, committed: Settings, g: Group, key: string): (r: Settings)
    ensures key in Section(r, g)
    ensures JsObject.Get(Section(r, g), key) == Not(JsObject.Get(Section(committed, g), key))
    ensures forall k :: k != key ==> JsObject.Get(Section(r, g), k) == JsObject.Get(Section(draft, g), k)
    ensures Section(r, g).Keys == Section(draft, g).Keys + {key}
    ensures r.profile == draft.profile && forall h :: h != g ==> Section(r, h) == Section(draft, h)
  {
    var section := Section(draft, g);
    WithSection(draft, g, section[key := Not(JsObject.Get(Section(committed, g), key))])
  }

  /** What a toggle writes depends on the committed settings alone, not on the draft. */
  lemma ToggleIgnoresDraft(d1: Settings, d2: Settings, committed: Settings, g: Group, key: string)
    ensures JsObject.Get(Section(Toggled(d1, committed, g, key), g), key)
         == JsObject.Get(Section(Toggled(d2, committed, g, key), g), key)
  {
  }

  /**
   * Toggling the same key twice before saving is toggling it once: the
   * draft keeps the negated value and is not restored.
   */
  lemma ToggleTwiceKeepsNegation(draft: Settings, committed: Settings, g: Group, key: string)
    ensures Toggled(Toggled(draft, committed, g, key), committed, g, key) == Toggled(draft, committed, g, key)
  {
    var once := Toggled(draft, committed, g, key);
    var twice := Toggled(once, committed, g, key);
    assert Section(twice, g) == Section(once, g);
    assert twice.profile == once.profile;
    assert forall h :: h != g ==> Section(twice, h) == Section(once, h);
    assert twice.preferences == once.preferences;
    assert twice.privacy == once.privacy;
    assert twice.integrations == once.integrations;
  }

  /** With nothing edited yet, two clicks on GitHub leave it disconnected in the draft instead of connected again. */
  lemma SecondClickDoesNotUndo()
    ensures var twice := Toggled(Toggled(InitialSettings, InitialSettings, Integrations, "github"),
                                 InitialSettings, Integrations, "github");
      JsObject.Get(twice.integrations, "github") == JsObject.Bool(false)
      && JsObject.Get(InitialSettings.integrations, "github") == JsObject.Bool(true)
  {
    ToggleTwiceKeepsNegation(InitialSettings, InitialSettings, Integrations, "github");
  }

  /** The evidently intended toggle: the draft's own value is negated. */
  function IntendedToggle(draft: Settings, g: Group, key: string): (r: Settings)
    ensures JsObject.Get(Section(r, g), key) == Not(JsObject.Get(Section(draft, g), key))
    ensures forall k :: k != key ==> JsObject.Get(Section(r, g), k) == JsObject.Get(Section(draft, g), k)
    ensures r.profile == draft.profile && forall h :: h != g ==> Section(r, h) == Section(draft, h)
  {
    Toggled(draft, draft, g, key)
  }

  /** Clicking an intended toggle twice restores a boolean entry, and with it the whole draft. */
  lemma IntendedToggleTwice(draft: Settings, g: Group, key: string)
    requires key in Section(draft, g) && Section(draft, g)[key].Bool?
    ensures IntendedToggle(IntendedToggle(draft, g, key), g, key) == draft
  {
    var twice := IntendedToggle(IntendedToggle(draft, g, key), g, key);
    NotTwice(Section(draft, g)[key]);
    assert Section(twice, g) == Section(draft, g);
    assert twice.preferences == draft.preferences;
    assert twice.privacy == draft.privacy;
    assert twice.integrations == draft.integrations;
  }

  /** On a draft that matches the committed settings, the page's toggle and the intended one agree. */
  lemma ToggleAgreesWhenClean(s: Settings, g: Group, key: string)
    ensures Toggled(s, s, g, key) == IntendedToggle(s, g, key)
  {
  }

  /** `{...profile, [field]: value}` for one of the three inputs. */
  function EditedProfile(p: Profile, field: ProfileField, value: string): (r: Profile)
    ensures field == Name ==> r.name == value
    ensures field == Email ==> r.email == value
    ensures field == Bio ==> r.bio == value
    ensures r.avatar == p.avatar && r.timezone == p.timezone
    ensures field != Name ==> r.name == p.name
    ensures field != Email ==> r.email == p.email
    ensures field != Bio ==> r.bio == p.bio
  {
    match field
    case Name => p.(name := value)
    case Email => p.(email := value)
    case Bio => p.(bio := value)
  }

  /** The latest text typed into an input wins. */
  lemma EditTwice(p: Profile, field: ProfileField, a: string, b: string)
    ensures EditedProfile(EditedProfile(p, field, a), field, b) == EditedProfile(p, field, b)
  {
  }

  class SettingsView {
    var settings: Settings
    var editedSettings: Settings
    var activeTab: string
    var isEditing: bool

    /** Nothing edited: the draft is the committed settings. */
    predicate Clean()
      reads this
    {
      editedSettings == settings
    }

    /** The canned settings, on the profile tab, with a clean draft. */
    constructor ()
      ensures settings == InitialSettings && Clean() && activeTab == "profile" && !isEditing
    {
      settings := InitialSettings;
      editedSettings := InitialSettings;
      activeTab := "profile";
      isEditing := false;
    }

    method SetActiveTab(tab: string)
      modifies this
      ensures activeTab == tab
      ensures settings == old(settings) && editedSettings == old(editedSettings) && isEditing == old(isEditing)
    {
      activeTab := tab;
    }

    /** `handleSave`: the draft becomes the committed settings, and edit mode ends. */
    method Save()
      modifies this
      ensures settings == old(editedSettings) && Clean() && !isEditing
      ensures activeTab == old(activeTab)
    {
      settings := editedSettings;
      isEditing := false;
    }

    /** `handleCancel`: the draft is reset to the committed settings, which do not change. */
    method Cancel()
      modifies this
      ensures settings == old(settings) && Clean() && !isEditing
      ensures activeTab == old(activeTab)
    {
      editedSettings := settings;
      isEditing := false;
    }

    /** A profile input: one field of the draft's profile; the committed settings do not change. */
    method EditProfile(field: ProfileField, value: string)
      modifies this
      ensures editedSettings == old(editedSettings).(profile := EditedProfile(old(editedSettings).profile, field, value))
      ensures settings == old(settings) && activeTab == old(activeTab) && isEditing == old(isEditing)
    {
      editedSettings := editedSettings.(profile := EditedProfile(editedSettings.profile, field, value));
    }

    /** A toggle button: the draft takes the negated committed value; the committed settings do not change. */
    method Toggle(g: Group, key: string)
      modifies this
      ensures editedSettings == Toggled(old(editedSettings), old(settings), g, key)
      ensures settings == old(settings) && activeTab == old(activeTab) && isEditing == old(isEditing)
    {
      editedSettings := Toggled(editedSettings, settings, g, key);
    }
  }
}
