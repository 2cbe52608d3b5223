/**
 * The Mongoose schemas of the gamification feature: badges, achievements,
 * per-user achievement progress, earned badges and the level table, with
 * their required fields, enumerations and defaults. Documents are created
 * from request input (`Option` for a field the input leaves out); a
 * missing required field or a value outside an enumeration is a
 * validation error.
 */
module GamificationModel {
  import opened Shared

  type Id = string

  datatype BadgeCategory = SkillBadge | Engagement | SocialBadge | AchievementBadge

  datatype Rarity = Common | Uncommon | Rare | Epic | Legendary

  datatype AchievementCategory = Beginner | Productivity | SocialAchievement | Learning | SkillAchievement

  datatype Badge = Badge(
    name: string, description: string, icon: string, category: BadgeCategory,
    rarity: Rarity, requirements: string, xpReward: int, createdAt: int)

  datatype Achievement = Achievement(
    name: string, description: string, category: AchievementCategory,
    maxProgress: int, xpReward: int, badgeReward: Option<Id>, createdAt: int)

  datatype UserAchievement = UserAchievement(
    user: Id, achievement: Id, progress: int, completed: bool,
    dateCompleted: Option<int>, createdAt: int)

  datatype UserBadge = UserBadge(user: Id, badge: Id, dateEarned: int)

  datatype Level = Level(level: int, xpRequired: int, title: Option<string>)

  /** The fields of a user document that the gamification controller reads and writes. */
  datatype User = User(role: string, level: int, xp: int)

  function ParseBadgeCategory(s: string): Option<BadgeCategory> {
    match s
    case "skill" => Some(SkillBadge)
    case "engagement" => Some(Engagement)
    case "social" => Some(SocialBadge)
    case "achievement" => Some(AchievementBadge)
    case _ => None
  }

  function BadgeCategoryName(c: BadgeCategory): string {
    match c
    case SkillBadge => "skill"
    case Engagement => "engagement"
    case SocialBadge => "social"
    case AchievementBadge => "achievement"
  }

  function ParseRarity(s: string): Option<Rarity> {
    match s
    case "common" => Some(Common)
    case "uncommon" => Some(Uncommon)
    case "rare" => Some(Rare)
    case "epic" => Some(Epic)
    case "legendary" => Some(Legendary)
    case _ => None
  }

  function RarityName(r: Rarity): string {
    match r
    case Common => "common"
    case Uncommon => "uncommon"
    case Rare => "rare"
    case Epic => "epic"
    case Legendary => "legendary"
  }

  function ParseAchievementCategory(s: string): Option<AchievementCategory> {
    match s
    case "beginner" => Some(Beginner)
    case "productivity" => Some(Productivity)
    case "social" => Some(SocialAchievement)
    case "learning" => Some(Learning)
    case "skill" => Some(SkillAchievement)
    case _ => None
  }

  function AchievementCategoryName(c: AchievementCategory): string {
    match c
    case Beginner => "beginner"
    case Productivity => "productivity"
    case SocialAchievement => "social"
    case Learning => "learning"
    case SkillAchievement => "skill"
  }

  /** Each enumeration accepts exactly the names it declares. */
  lemma EnumNamesRoundTrip(c: BadgeCategory, r: Rarity, a: AchievementCategory)
    ensures ParseBadgeCategory(BadgeCategoryName(c)) == Some(c)
    ensures ParseRarity(RarityName(r)) == Some(r)
    ensures ParseAchievementCategory(AchievementCategoryName(a)) == Some(a)
  {
  }

  lemma EnumParseIsName(s: string)
    ensures ParseBadgeCategory(s).Some? ==> BadgeCategoryName(ParseBadgeCategory(s).value) == s
    ensures ParseRarity(s).Some? ==> RarityName(ParseRarity(s).value) == s
    ensures ParseAchievementCategory(s).Some? ==> AchievementCategoryName(ParseAchievementCategory(s).value) == s
  {
  }

  /** Creating a badge document: required name, description, icon, category and requirements; rarity defaults to common, xpReward to 50. */
  function NewBadge(
    name: Option<string>, description: Option<string>, icon: Option<string>,
    category: Option<string>, rarity: Option<string>, requirements: Option<string>,
    xpReward: Option<int>, now: int): (r: Validated<Badge>)
    ensures r.Valid? <==>
      Present(name) && Present(description) && Present(icon) && Present(category)
      && ParseBadgeCategory(category.value).Some?
      && (rarity.None? || ParseRarity(rarity.value).Some?)
      && requirements.Some?
    ensures r.Valid? ==>
      r.doc.rarity == (if rarity.None? then Common else ParseRarity(rarity.value).value)
      && r.doc.xpReward == (if xpReward.None? then 50 else xpReward.value)
      && BadgeCategoryName(r.doc.category) == category.value
      && r.doc.createdAt == now
  {
    if !Present(name) then Invalid(Missing("name"))
    else if !Present(description) then Invalid(Missing("description"))
    else if !Present(icon) then Invalid(Missing("icon"))
    else if !Present(category) then Invalid(Missing("category"))
    else if ParseBadgeCategory(category.value).None? then Invalid(NotInEnum("category"))
    else if rarity.Some? && ParseRarity(rarity.value).None? then Invalid(NotInEnum("rarity"))
    else if requirements.None? then Invalid(Missing("requirements"))
    else
      Valid(Badge(name.value, description.value, icon.value, ParseBadgeCategory(category.value).value,
        if rarity.None? then Common else ParseRarity(rarity.value).value,
        requirements.value, xpReward.GetOr(50), now))
  }

  /** Creating an achievement: maxProgress and xpReward are required numbers, badgeReward is optional. */
  function NewAchievement(
    name: Option<string>, description: Option<string>, category: Option<string>,
    maxProgress: Option<int>, xpReward: Option<int>, badgeReward: Option<Id>, now: int): (r: Validated<Achievement>)
    ensures r.Valid? <==>
      Present(name) && Present(description) && Present(category)
      && ParseAchievementCategory(category.value).Some?
      && maxProgress.Some? && xpReward.Some?
    ensures r.Valid? ==>
      r.doc.maxProgress == maxProgress.value && r.doc.xpReward == xpReward.value
      && r.doc.badgeReward == badgeReward
      && AchievementCategoryName(r.doc.category) == category.value
  {
    if !Present(name) then Invalid(Missing("name"))
    else if !Present(description) then Invalid(Missing("description"))
    else if !Present(category) then Invalid(Missing("category"))
    else if ParseAchievementCategory(category.value).None? then Invalid(NotInEnum("category"))
    else if maxProgress.None? then Invalid(Missing("maxProgress"))
    else if xpReward.None? then Invalid(Missing("xpReward"))
    else
      Valid(Achievement(name.value, description.value, ParseAchievementCategory(category.value).value,
        maxProgress.value, xpReward.value, badgeReward, now))
  }

  /** A fresh progress record: progress 0, not completed, no completion date. */
  function NewUserAchievement(user: Id, achievement: Id, now: int): (r: UserAchievement)
    ensures r.user == user && r.achievement == achievement
    ensures r.progress == 0 && !r.completed && r.dateCompleted.None?
  {
    UserAchievement(user, achievement, 0, false, None, now)
  }

  /** A freshly earned badge, dated now. */
  function NewUserBadge(user: Id, badge: Id, now: int): (r: UserBadge)
    ensures r.user == user && r.badge == badge && r.dateEarned == now
  {
    UserBadge(user, badge, now)
  }

  /**
   * The level table, indexed by level number: the unique index on `level`
   * means at most one row per number, and each row is stored under its own
   * number.
   */
  predicate LevelTable(levels: map<int, Level>) {
    forall n :: n in levels ==> levels[n].level == n
  }

  /** Inserting a level: `xpRequired` is required and a second row with the same number is a duplicate-key error. */
  function InsertLevel(levels: map<int, Level>, level: Option<int>, xpRequired: Option<int>, title: Option<string>):
    (r: Validated<map<int, Level>>)
    requires LevelTable(levels)
    ensures r.Valid? <==> level.Some? && xpRequired.Some? && level.value !in levels
    ensures r.Valid? ==>
      LevelTable(r.doc) && r.doc.Keys == levels.Keys + {level.value}
      && r.doc[level.value].xpRequired == xpRequired.value
      && forall n :: n in levels ==> r.doc[n] == levels[n]
  {
    if level.None? then Invalid(Missing("level"))
    else if xpRequired.None? then Invalid(Missing("xpRequired"))
    else if level.value in levels then Invalid(DuplicateKey("level"))
    else Valid(levels[level.value := Level(level.value, xpRequired.value, title)])
  }

  /**
   * Saving an earned badge or a progress record: neither schema has a unique
   * index on its (user, badge) or (user, achievement) pair, so the collection
   * accepts a second copy; at most one per pair is kept only by the
   * controller's lookups.
   */
  function SaveRow<T>(rows: seq<T>, row: T): (r: seq<T>)
    ensures |r| == |rows| + 1 && r[..|rows|] == rows && r[|rows|] == row
  {
    rows + [row]
  }

  /** Two saves of the same pair give two rows: nothing in the schema forbids it. */
  lemma DuplicateBadgeAccepted(u: Id, b: Id, t1: int, t2: int)
    ensures var rows := SaveRow(SaveRow([], NewUserBadge(u, b, t1)), NewUserBadge(u, b, t2));
      |rows| == 2 && rows[0].user == rows[1].user && rows[0].badge == rows[1].badge
  {
  }
}
