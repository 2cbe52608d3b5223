/**
 * The gamification controller: the achievement-progress and badge-award
 * handlers that change the collections, and the profile and leaderboard
 * reads. The collections live in one in-memory database object; the caller
 * is given by id (and role), and `now` stands for `Date.now()`.
 */
module Gamification {
  import opened Shared
  import opened GamificationModel
  import Lists
  import Paging

  // The error messages the handlers reply with.
  const ProgressRequired := "Progress value is required"
  const AchievementNotFound := "Achievement not found"
  const NotAwarder := "Not authorized to award badges"
  const UserIdRequired := "User ID is required"
  const BadgeNotFound := "Badge not found"
  const UserNotFound := "User not found"
  const BadgeAlreadyAwarded := "User already has this badge"

  /** The gamification collections. */
  class GamificationDb {
    var users: map<Id, User>
    var badges: map<Id, Badge>
    var achievements: map<Id, Achievement>
    var levels: map<int, Level>
    var userAchievements: seq<UserAchievement>
    var userBadges: seq<UserBadge>

    /**
     * The level index is unique by schema; one progress record and one
     * earned badge per (user, item) pair hold only because every handler
     * looks before it inserts.
     */
    ghost predicate Valid()
      reads this
    {
      LevelTable(levels) && OneProgressPerPair(userAchievements) && OneBadgePerPair(userBadges)
    }

    constructor (levels: map<int, Level>)
      requires LevelTable(levels)
      ensures Valid()
      ensures this.levels == levels && users == map[] && badges == map[] && achievements == map[]
      ensures userAchievements == [] && userBadges == []
    {
      this.levels := levels;
      users, badges, achievements := map[], map[], map[];
      userAchievements, userBadges := [], [];
    }
  }

  predicate OneProgressPerPair(rows: seq<UserAchievement>) {
    forall i, j :: 0 <= i < j < |rows| ==> (rows[i].user, rows[i].achievement) != (rows[j].user, rows[j].achievement)
  }

  predicate OneBadgePerPair(rows: seq<UserBadge>) {
    forall i, j :: 0 <= i < j < |rows| ==> (rows[i].user, rows[i].badge) != (rows[j].user, rows[j].badge)
  }

  /** `UserAchievement.findOne({ user, achievement })`: the first matching record, as an index, or -1. */
  function FindProgress(rows: seq<UserAchievement>, user: Id, achievement: Id): (k: int)
    ensures -1 <= k < |rows|
    ensures k >= 0 ==> rows[k].user == user && rows[k].achievement == achievement
    ensures k == -1 <==> forall i :: 0 <= i < |rows| ==> (rows[i].user, rows[i].achievement) != (user, achievement)
  {
    Lists.FirstIndex(rows, (r: UserAchievement) => r.user == user && r.achievement == achievement)
  }

  /** `UserBadge.findOne({ user, badge })`: the first matching record, as an index, or -1. */
  function FindBadge(rows: seq<UserBadge>, user: Id, badge: Id): (k: int)
    ensures -1 <= k < |rows|
    ensures k >= 0 ==> rows[k].user == user && rows[k].badge == badge
    ensures k == -1 <==> forall i :: 0 <= i < |rows| ==> (rows[i].user, rows[i].badge) != (user, badge)
  {
    Lists.FirstIndex(rows, (r: UserBadge) => r.user == user && r.badge == badge)
  }

  // ---------------------------------------------------------------------
  // updateAchievementProgress, step by step

  /** `Math.min(progress, achievement.maxProgress)`. */
  function Clamp(reported: int, maxProgress: int): (p: int)
    ensures p <= maxProgress && p <= reported
    ensures p == reported || p == maxProgress
  {
    if reported < maxProgress then reported else maxProgress
  }

  /** The completion transition fires: the clamped progress reaches the cap and the record was not completed before. */
  predicate Completes(prev: UserAchievement, maxProgress: int, reported: int) {
    !prev.completed && Clamp(reported, maxProgress) >= maxProgress
  }

  /** The record after the progress update and the completion check. */
  function Advance(prev: UserAchievement, maxProgress: int, reported: int, now: int): (r: UserAchievement)
    ensures r.user == prev.user && r.achievement == prev.achievement && r.createdAt == prev.createdAt
    ensures r.progress <= maxProgress && (reported <= maxProgress ==> r.progress == reported)
    ensures prev.completed ==> r.completed && r.dateCompleted == prev.dateCompleted
    ensures !prev.completed ==> (r.completed <==> reported >= maxProgress)
    ensures r.completed && !prev.completed ==> r.dateCompleted == Some(now)
    ensures !r.completed ==> r.dateCompleted == prev.dateCompleted
  {
    var p := Clamp(reported, maxProgress);
    if p >= maxProgress && !prev.completed then
      prev.(progress := p, completed := true, dateCompleted := Some(now))
    else
      prev.(progress := p)
  }

  /**
   * XP is awarded at most once per record: once a record has completed, no
   * later report, whatever its value, completes it again.
   */
  lemma {:induction false} CompletesAtMostOnce(prev: UserAchievement, maxProgress: int, p1: int, t1: int, p2: int)
    requires Completes(prev, maxProgress, p1)
    ensures !Completes(Advance(prev, maxProgress, p1, t1), maxProgress, p2)
  {
    assert Advance(prev, maxProgress, p1, t1).completed;
  }

  /** Lowering the reported progress lowers the stored progress but never resets completion. */
  lemma {:induction false} LowerReportKeepsCompletion(prev: UserAchievement, maxProgress: int, p1: int, t1: int, p2: int, t2: int)
    requires p2 < maxProgress && Completes(prev, maxProgress, p1)
    ensures var after := Advance(Advance(prev, maxProgress, p1, t1), maxProgress, p2, t2);
      after.progress == p2 && after.completed && after.dateCompleted == Some(t1)
  {
    assert Advance(prev, maxProgress, p1, t1).completed;
  }

  /** Adds the reward to the user's XP, then applies the single-step level-up check. */
  function AwardXp(u: User, levels: map<int, Level>, reward: int): (r: User)
    ensures r.role == u.role && r.xp == u.xp + reward
    ensures r.level == u.level || r.level == u.level + 1
    ensures r.level == u.level + 1 <==> u.level + 1 in levels && r.xp >= levels[u.level + 1].xpRequired
  {
    var xp := u.xp + reward;
    if u.level + 1 in levels && xp >= levels[u.level + 1].xpRequired then
      u.(xp := xp, level := u.level + 1)
    else
      u.(xp := xp)
  }

  /** The mock level table of the controller: levels 1 to 5 at 0, 100, 300, 600 and 1000 XP. */
  function MockLadder(): (levels: map<int, Level>)
    ensures LevelTable(levels)
  {
    map[1 := Level(1, 0, None), 2 := Level(2, 100, None), 3 := Level(3, 300, None),
        4 := Level(4, 600, None), 5 := Level(5, 1000, None)]
  }

  /** An award that crosses two thresholds still raises one level: 90 + 260 XP at level 1 reaches 350 but only level 2. */
  lemma LevelUpIsSingleStep()
    ensures var u := AwardXp(User("user", 1, 90), MockLadder(), 260);
      u.xp == 350 && u.xp >= MockLadder()[3].xpRequired && u.level == 2
  {
  }

  /** At the top of the table no award raises the level. */
  lemma NoLevelPastTheTable(u: User, reward: int)
    requires u.level == 5
    ensures AwardXp(u, MockLadder(), reward).level == 5
  {
  }

  /** Lines 258-274: the badge row is created only when the user does not hold the badge yet. */
  function GrantBadge(rows: seq<UserBadge>, user: Id, badge: Id, now: int): (r: seq<UserBadge>)
    ensures FindBadge(r, user, badge) >= 0
    ensures FindBadge(rows, user, badge) >= 0 ==> r == rows
    ensures FindBadge(rows, user, badge) < 0 ==> r == rows + [NewUserBadge(user, badge, now)]
    ensures OneBadgePerPair(rows) ==> OneBadgePerPair(r)
  {
    if FindBadge(rows, user, badge) >= 0 then rows
    else
      var r := rows + [NewUserBadge(user, badge, now)];
      assert r[|rows|].user == user && r[|rows|].badge == badge;
      r
  }

  /** Saving the record: in place when it was found, appended when it was created. */
  function StoreProgress(rows: seq<UserAchievement>, row: UserAchievement): (r: seq<UserAchievement>)
    ensures var k := FindProgress(rows, row.user, row.achievement);
      (k >= 0 ==> r == rows[k := row]) && (k < 0 ==> r == rows + [row])
    ensures OneProgressPerPair(rows) ==> OneProgressPerPair(r)
  {
    var k := FindProgress(rows, row.user, row.achievement);
    if k >= 0 then rows[k := row] else rows + [row]
  }

  /** What the handler did, before the reply is built. */
  datatype Award = Award(xpReward: int, levelBefore: int, levelAfter: int)

  datatype ProgressStep =
    | Rejected(reply: Reply<ProgressBody>)
    | Saved(achievement: Id, row: UserAchievement, award: Option<Award>)

  datatype ProgressBody = ProgressBody(
    id: Id, progress: int, completed: bool, dateCompleted: Option<int>, levelUp: bool, xpAwarded: int)

  /**
   * The reply as the handler builds it: on the completion path, line 287
   * reads `user` and `currentLevel` outside the block that declares them,
   * so the reply is the catch block's 500 although every save has happened.
   */
  function RespondAsWritten(step: ProgressStep): (reply: Reply<ProgressBody>)
    ensures step.Saved? && step.award.Some? ==> reply == ServerError()
    ensures step.Saved? && step.award.None? ==> reply.Success? && reply.status == 200
  {
    match step
    case Rejected(reply) => reply
    case Saved(id, row, award) =>
      if award.Some? then ServerError()
      else Success(200, ProgressBody(id, row.progress, row.completed, row.dateCompleted, false, 0))
  }

  /** The reply the handler evidently means to send: 200, the reward as xpAwarded, and whether the level rose. */
  function Respond(step: ProgressStep): (reply: Reply<ProgressBody>)
    ensures step.Saved? ==> reply.Success? && reply.status == 200
    ensures step.Saved? ==> reply.body.progress == step.row.progress && reply.body.completed == step.row.completed
    ensures step.Saved? && step.award.Some? ==>
      reply.body.xpAwarded == step.award.value.xpReward
      && (reply.body.levelUp <==> step.award.value.levelAfter > step.award.value.levelBefore)
    ensures step.Saved? && step.award.None? ==> reply.body.xpAwarded == 0 && !reply.body.levelUp
  {
    match step
    case Rejected(reply) => reply
    case Saved(id, row, award) =>
      var levelUp := award.Some? && award.value.levelAfter > award.value.levelBefore;
      var xp := if award.Some? then award.value.xpReward else 0;
      Success(200, ProgressBody(id, row.progress, row.completed, row.dateCompleted, levelUp, xp))
  }

  /** The two replies differ exactly on the completion path, where the written one is a 500. */
  lemma {:induction false} RepliesDifferOnlyOnCompletion(step: ProgressStep)
    ensures RespondAsWritten(step) != Respond(step) <==> step.Saved? && step.award.Some?
  {
    if step.Saved? && step.award.Some? {
      assert Respond(step).Success?;
    }
  }

  /**
   * `updateAchievementProgress`: validate, find or create the caller's
   * record, clamp, and on the completion transition award XP, check the
   * level and grant the badge; then save the record.
   */
  method UpdateAchievementProgress(db: GamificationDb, caller: Id, achievementId: Id, progress: Option<int>, now: int)
    returns (step: ProgressStep, reply: Reply<ProgressBody>)
    requires db.Valid()
    modifies db
    ensures db.Valid()
    ensures reply == RespondAsWritten(step)
    ensures db.badges == old(db.badges) && db.achievements == old(db.achievements) && db.levels == old(db.levels)
    ensures progress.None? ==>
      step == Rejected(Failure(400, ProgressRequired)) && unchanged(db)
    ensures progress.Some? && achievementId !in old(db.achievements) ==>
      step == Rejected(Failure(404, AchievementNotFound)) && unchanged(db)
    ensures progress.Some? && achievementId in old(db.achievements) ==>
      var ach := old(db.achievements)[achievementId];
      var k := FindProgress(old(db.userAchievements), caller, achievementId);
      var prev := if k >= 0 then old(db.userAchievements)[k] else NewUserAchievement(caller, achievementId, now);
      var row := Advance(prev, ach.maxProgress, progress.value, now);
      if !Completes(prev, ach.maxProgress, progress.value) then
        step == Saved(achievementId, row, None)
        && db.userAchievements == StoreProgress(old(db.userAchievements), row)
        && db.users == old(db.users) && db.userBadges == old(db.userBadges)
      else if caller !in old(db.users) then
        step == Rejected(ServerError()) && unchanged(db)
      else
        var u := old(db.users)[caller];
        var u' := AwardXp(u, db.levels, ach.xpReward);
        step == Saved(achievementId, row, Some(Award(ach.xpReward, u.level, u'.level)))
        && db.users == old(db.users)[caller := u']
        && db.userBadges == (if ach.badgeReward.Some? then GrantBadge(old(db.userBadges), caller, ach.badgeReward.value, now)
                             else old(db.userBadges))
        && db.userAchievements == StoreProgress(old(db.userAchievements), row)
  {
    if progress.None? {
      step := Rejected(Failure(400, ProgressRequired));
      reply := RespondAsWritten(step);
      return;
    }
    if achievementId !in db.achievements {
      step := Rejected(Failure(404, AchievementNotFound));
      reply := RespondAsWritten(step);
      return;
    }
    var achievement := db.achievements[achievementId];
    var k := FindProgress(db.userAchievements, caller, achievementId);
    var userAchievement := if k >= 0 then db.userAchievements[k] else NewUserAchievement(caller, achievementId, now);
    var updated := Advance(userAchievement, achievement.maxProgress, progress.value, now);
    var award: Option<Award> := None;
    assert updated.user == caller && updated.achievement == achievementId;
    if Completes(userAchievement, achievement.maxProgress, progress.value) {
      if caller !in db.users {
        // reading the XP of a missing user throws before anything is saved
        step := Rejected(ServerError());
        reply := RespondAsWritten(step);
        return;
      }
      var a := AwardCompletion(db, caller, achievement, now);
      award := Some(a);
    }
    db.userAchievements := StoreProgress(db.userAchievements, updated);
    step := Saved(achievementId, updated, award);
    reply := RespondAsWritten(step);
  }

  /** Lines 241-274: the completion's XP, the level check and the badge grant, all before the record is saved. */
  method AwardCompletion(db: GamificationDb, caller: Id, achievement: Achievement, now: int) returns (award: Award)
    requires db.Valid() && caller in db.users
    modifies db
    ensures db.Valid()
    ensures var u := old(db.users)[caller];
      var u' := AwardXp(u, db.levels, achievement.xpReward);
      award == Award(achievement.xpReward, u.level, u'.level) && db.users == old(db.users)[caller := u']
    ensures db.userBadges == (if achievement.badgeReward.Some? then GrantBadge(old(db.userBadges), caller, achievement.badgeReward.value, now)
                              else old(db.userBadges))
    ensures db.badges == old(db.badges) && db.achievements == old(db.achievements) && db.levels == old(db.levels)
    ensures db.userAchievements == old(db.userAchievements)
  {
    var user := db.users[caller];
    var awarded := AwardXp(user, db.levels, achievement.xpReward);
    db.users := db.users[caller := awarded];
    if achievement.badgeReward.Some? {
      db.userBadges := GrantBadge(db.userBadges, caller, achievement.badgeReward.value, now);
    }
    award := Award(achievement.xpReward, user.level, awarded.level);
  }

  // ---------------------------------------------------------------------
  // awardBadge

  datatype BadgeAwardBody = BadgeAwardBody(id: Id, dateEarned: int, xpAwarded: int)

  /**
   * `awardBadge`: admin only; the user id is required; the badge and the
   * user must exist and the user must not hold the badge. Then one earned
   * badge is stored and, for a positive reward, XP and the level check
   * follow. The reply reports the badge's reward as xpAwarded whatever its sign.
   */
  method AwardBadge(db: GamificationDb, callerRole: string, userId: Option<Id>, badgeId: Id, now: int)
    returns (reply: Reply<BadgeAwardBody>)
    requires db.Valid()
    modifies db
    ensures db.Valid()
    ensures db.badges == old(db.badges) && db.achievements == old(db.achievements)
    ensures db.levels == old(db.levels) && db.userAchievements == old(db.userAchievements)
    ensures callerRole != "admin" ==>
      reply == Failure(403, NotAwarder) && unchanged(db)
    ensures callerRole == "admin" && !Present(userId) ==>
      reply == Failure(400, UserIdRequired) && unchanged(db)
    ensures callerRole == "admin" && Present(userId) && badgeId !in old(db.badges) ==>
      reply == Failure(404, BadgeNotFound) && unchanged(db)
    ensures callerRole == "admin" && Present(userId) && badgeId in old(db.badges) && userId.value !in old(db.users) ==>
      reply == Failure(404, UserNotFound) && unchanged(db)
    ensures (callerRole == "admin" && Present(userId) && badgeId in old(db.badges) && userId.value in old(db.users)
             && FindBadge(old(db.userBadges), userId.value, badgeId) >= 0) ==>
      reply == Failure(400, BadgeAlreadyAwarded) && unchanged(db)
    ensures (callerRole == "admin" && Present(userId) && badgeId in old(db.badges) && userId.value in old(db.users)
             && FindBadge(old(db.userBadges), userId.value, badgeId) < 0) ==>
      var badge := old(db.badges)[badgeId];
      var u := old(db.users)[userId.value];
      reply == Success(201, BadgeAwardBody(badgeId, now, badge.xpReward))
      && db.userBadges == old(db.userBadges) + [NewUserBadge(userId.value, badgeId, now)]
      && db.users == (if badge.xpReward > 0 then old(db.users)[userId.value := AwardXp(u, db.levels, badge.xpReward)]
                      else old(db.users))
  {
    if callerRole != "admin" {
      return Failure(403, NotAwarder);
    }
    if !Present(userId) {
      return Failure(400, UserIdRequired);
    }
    var uid := userId.value;
    if badgeId !in db.badges {
      return Failure(404, BadgeNotFound);
    }
    var badge := db.badges[badgeId];
    if uid !in db.users {
      return Failure(404, UserNotFound);
    }
    var user := db.users[uid];
    if FindBadge(db.userBadges, uid, badgeId) >= 0 {
      return Failure(400, BadgeAlreadyAwarded);
    }
    var userBadge := NewUserBadge(uid, badgeId, now);
    db.userBadges := GrantBadge(db.userBadges, uid, badgeId, now);
    if badge.xpReward > 0 {
      user := user.(xp := user.xp + badge.xpReward);
      if user.level + 1 in db.levels && user.xp >= db.levels[user.level + 1].xpRequired {
        user := user.(level := user.level + 1);
      }
      db.users := db.users[uid := user];
    }
    reply := Success(201, BadgeAwardBody(userBadge.badge, userBadge.dateEarned, badge.xpReward));
  }

  // ---------------------------------------------------------------------
  // getGamificationProfile and getLeaderboard

  /**
   * `order` is a result of `User.find(query).sort({ xp: -1 })`: distinct
   * users of the collection, highest XP first (ties in any order).
   */
  predicate XpOrder(order: seq<Id>, users: map<Id, User>) {
    InUsers(order, users)
    && (forall i, j :: 0 <= i < j < |order| ==> order[i] != order[j])
    && (forall i, j :: 0 <= i < j < |order| ==> users[order[i]].xp >= users[order[j]].xp)
  }

  predicate InUsers(order: seq<Id>, users: map<Id, User>) {
    forall i :: 0 <= i < |order| ==> order[i] in users
  }

  /** The order holds every user (the profile's query has no filter). */
  predicate Complete(order: seq<Id>, users: map<Id, User>) {
    forall u :: u in users ==> u in order
  }

  datatype ProfileData = ProfileData(level: int, xp: int, nextLevelXp: Option<int>, rank: int)

  /**
   * The level, XP, next-level threshold (null when the table has no next
   * level) and rank (the 1-based position in the XP order) of the caller.
   */
  function GamificationProfile(users: map<Id, User>, levels: map<int, Level>, order: seq<Id>, caller: Id):
    (reply: Reply<ProfileData>)
    requires XpOrder(order, users) && Complete(order, users)
    ensures caller !in users ==> reply == ServerError()
    ensures caller in users ==>
      reply.Success? && reply.status == 200
      && reply.body.level == users[caller].level && reply.body.xp == users[caller].xp
      && (reply.body.nextLevelXp.Some? <==> users[caller].level + 1 in levels)
      && (reply.body.nextLevelXp.Some? ==> reply.body.nextLevelXp.value == levels[users[caller].level + 1].xpRequired)
      && 1 <= reply.body.rank <= |order| && order[reply.body.rank - 1] == caller
  {
    if caller !in users then ServerError()
    else
      var user := users[caller];
      var next := if user.level + 1 in levels then Some(levels[user.level + 1].xpRequired) else None;
      var rank := Lists.FirstIndex(order, (u: Id) => u == caller) + 1;
      Success(200, ProfileData(user.level, user.xp, next, rank))
  }

  /** The users with strictly more XP than `xp`, and those with at least as much. */
  function HasMoreXp(users: map<Id, User>, xp: int): Id -> bool {
    u => u in users && users[u].xp > xp
  }

  function HasAtLeastXp(users: map<Id, User>, xp: int): Id -> bool {
    u => u in users && users[u].xp >= xp
  }

  /** The rank lies after every user strictly ahead and within the users at or above the caller's XP. */
  lemma {:induction false} RankBetweenTies(users: map<Id, User>, levels: map<int, Level>, order: seq<Id>, caller: Id)
    requires XpOrder(order, users) && Complete(order, users) && caller in users
    ensures var rank := GamificationProfile(users, levels, order, caller).body.rank;
      Lists.Count(order, HasMoreXp(users, users[caller].xp)) < rank
      && rank <= Lists.Count(order, HasAtLeastXp(users, users[caller].xp))
  {
    var reply := GamificationProfile(users, levels, order, caller);
    var i := reply.body.rank - 1;
    assert 0 <= i < |order| && order[i] == caller;
    CountsAround(order, users, i);
  }

  /** In an XP order, the users strictly ahead of position `i` are all before it, and the users before it have at least its XP. */
  lemma CountsAround(order: seq<Id>, users: map<Id, User>, i: int)
    requires XpOrder(order, users) && 0 <= i < |order|
    ensures var x := users[order[i]].xp;
      Lists.Count(order, HasMoreXp(users, x)) <= i < Lists.Count(order, HasAtLeastXp(users, x))
  {
    var x := users[order[i]].xp;
    var above, atLeast := HasMoreXp(users, x), HasAtLeastXp(users, x);
    var head, tail := order[..i], order[i..];
    assert order == head + tail;
    forall j | 0 <= j < |head|
      ensures atLeast(head[j])
    {
      assert head[j] == order[j];
    }
    forall j | 0 <= j < |tail|
      ensures !above(tail[j])
    {
      assert tail[j] == order[i + j];
    }
    Lists.CountSplit(head, tail, above);
    Lists.CountSplit(head, tail, atLeast);
    Lists.CountAll(head, atLeast);
    assert atLeast(tail[0]);
    Lists.CountAtLeastOne(tail, atLeast);
  }

  datatype LeaderRow = LeaderRow(id: Id, level: int, xp: int, badges: nat, achievements: nat, rank: int)

  datatype Pagination = Pagination(total: nat, page: int, limit: int, pages: Paging.PageCount)

  datatype LeaderboardPage = LeaderboardPage(data: seq<LeaderRow>, pagination: Pagination)

  /**
   * `getLeaderboard` over `order`, the users matching the timeframe query
   * in XP order: skip `(page - 1) * limit`, take `limit`, and rank each row
   * by its position in the whole order. A negative skip is refused by the
   * database, which the handler reports as a 500.
   */
  function Leaderboard(users: map<Id, User>, userBadges: seq<UserBadge>, userAchievements: seq<UserAchievement>,
                       order: seq<Id>, page: int, limit: int): (reply: Reply<LeaderboardPage>)
    requires InUsers(order, users)
    ensures Paging.Skip(page, limit) < 0 ==> reply == ServerError()
    ensures Paging.Skip(page, limit) >= 0 ==>
      reply.Success? && reply.status == 200
      && |reply.body.data| == Paging.Take(|order| - Paging.Skip(page, limit), limit)
      && reply.body.pagination == Pagination(|order|, page, limit, Paging.Pages(|order|, limit))
      && forall i :: 0 <= i < |reply.body.data| ==>
           var row := reply.body.data[i];
           1 <= row.rank <= |order| && order[row.rank - 1] == row.id
           && row.rank == Paging.Skip(page, limit) + i + 1
           && row.xp == users[row.id].xp && row.level == users[row.id].level
  {
    var skip := Paging.Skip(page, limit);
    if skip < 0 then ServerError()
    else
      var n := Paging.Take(|order| - skip, limit);
      var rows := seq(n, i requires 0 <= i < n => Row(users, userBadges, userAchievements, order, skip + i));
      assert forall i :: 0 <= i < n ==> rows[i] == Row(users, userBadges, userAchievements, order, skip + i);
      Success(200, LeaderboardPage(rows, Pagination(|order|, page, limit, Paging.Pages(|order|, limit))))
  }

  function Row(users: map<Id, User>, userBadges: seq<UserBadge>, userAchievements: seq<UserAchievement>,
               order: seq<Id>, k: int): (row: LeaderRow)
    requires InUsers(order, users) && 0 <= k < |order|
    ensures row.id == order[k] && row.rank == k + 1
    ensures row.xp == users[row.id].xp && row.level == users[row.id].level
  {
    var id := order[k];
    LeaderRow(id, users[id].level, users[id].xp,
      Lists.Count(userBadges, (b: UserBadge) => b.user == id),
      Lists.Count(userAchievements, (a: UserAchievement) => a.user == id && a.completed),
      k + 1)
  }

  /** Consecutive pages rank consecutive users: the last rank on a full page is followed by the first on the next. */
  lemma PagesAreConsecutive(users: map<Id, User>, userBadges: seq<UserBadge>, userAchievements: seq<UserAchievement>,
                            order: seq<Id>, page: int, limit: int)
    requires XpOrder(order, users) && page >= 1 && limit >= 1 && page * limit < |order|
    ensures var a := Leaderboard(users, userBadges, userAchievements, order, page, limit);
      var b := Leaderboard(users, userBadges, userAchievements, order, page + 1, limit);
      a.Success? && b.Success? && |a.body.data| == limit && |b.body.data| >= 1
      && b.body.data[0].rank == a.body.data[limit - 1].rank + 1
  {
    var skip := Paging.Skip(page, limit);
    assert skip >= 0 && skip + limit == page * limit;
    assert Paging.Skip(page + 1, limit) == page * limit;
  }
}
