# Mentor app: a Dafny model

A mentorship application with three surfaces: an Express/MongoDB server, a React web
client with shared Redux slices, and a React Native mobile app. Users track todos and
projects, run Pomodoro sessions, earn achievements, badges, XP and levels, keep
profiles that can follow each other, chat in rooms and direct conversations, join
voice rooms, and browse a social-media feed.

This project models the logic of those parts in Dafny and proves properties about it:

- **Server controllers and models** are classes over maps and sequences, one class per
  area: gamification, chat rooms, messages, profiles and the social feed. Each request
  handler is a method that returns the status and body the handler sends. Error cases
  are modelled as replies: not found, forbidden, bad request and the 500 of a catch
  block.
- **Redux slices** (todos, projects, social media, auth) are classes whose reducers are
  methods.
- **React components and pages** are classes whose fields are the component's state
  hooks and whose handlers are methods. Values derived at render time are functions.
  Effects and intervals are explicit `Tick`/`Commit` methods.
- **Mobile screens** (Pomodoro, to-do list, projects, chat, mentorship) follow the same
  pattern.

Shared modules model the JavaScript built-ins the code leans on:
- `JsText`: `trim`, `split`, `toLowerCase`, `includes`, `parseInt`, `toString` and
  `padStart`.
- `Lists`: first-match update, `filter`, `map` over matches, and a stable sort.
- `JsObject`: object spread over loosely typed documents.
- `Clock`: `MM:SS` formatting.
- `Paging`: skip/limit pagination.

Ids and timestamps that the code takes from `Date.now()` or from MongoDB are method
parameters.

## Model

| member | source | states |
|---|---|---|
| JsText.TrimEmptyIffBlank | home/ubuntu/mentor-app/mentor/screens/TodoListScreen.tsx:15 | a text is blank after trimming exactly when every character is white space |
| JsText.SplitTrim | home/ubuntu/mentor-app/server/controllers/profile.js:55-61 | splitting on commas and trimming gives one trimmed piece per piece of the split, never an empty list |
| JsText.JoinSplit | home/ubuntu/mentor-app/server/controllers/profile.js:55 | joining the pieces of a split with the separator gives back the text |
| JsText.SplitJoin | home/ubuntu/mentor-app/server/controllers/profile.js:55 | splitting a join of separator-free pieces gives back the pieces |
| JsText.ParseInt | home/ubuntu/mentor-app/client/shared/components/UserProfile.js:225 | parseInt(value, 10) is NaN exactly when no digit follows the leading white space and sign |
| JsText.ParseIntToString | home/ubuntu/mentor-app/client/shared/components/UserProfile.js:225 | parseInt reads back any integer written by toString |
| Lists.SortByStable | home/ubuntu/mentor-app/server/controllers/messages.js:36 | the sort by creation time keeps messages with the same time in their stored order (also line 105) |
| Lists.WithoutMembers | home/ubuntu/mentor-app/server/controllers/profile.js:392-400 | removing an id from a list keeps exactly the other ids |
| JsObject.SpreadIdempotent | home/ubuntu/mentor-app/client/shared/redux/slices/projectsSlice.js:41-45 | merging the same updates twice equals merging them once |
| JsObject.SpreadTwice | home/ubuntu/mentor-app/client/shared/redux/slices/projectsSlice.js:41-45 | two merges in a row equal one merge of the combined updates |
| Gamification.GamificationDb.constructor | home/ubuntu/mentor-app/server/models/Gamification.js:123-132 | an empty database over a level table with unique level numbers starts valid |
| Gamification.FindProgress | home/ubuntu/mentor-app/server/controllers/gamification.js:217-220 | the lookup finds a record of that user and achievement, and returns -1 exactly when no record matches the pair |
| Gamification.FindBadge | home/ubuntu/mentor-app/server/controllers/gamification.js:260-263 | the lookup finds a badge row of that user and badge, and returns -1 exactly when none matches |
| Gamification.Clamp | home/ubuntu/mentor-app/server/controllers/gamification.js:231 | the stored progress is at most the cap and at most the report, and equals one of them |
| Gamification.Advance | home/ubuntu/mentor-app/server/controllers/gamification.js:230-239 | progress never exceeds the cap and a lower report is stored as given; a completed record stays completed with its date; an uncompleted one completes exactly when the report reaches the cap, dated now |
| Gamification.CompletesAtMostOnce | home/ubuntu/mentor-app/server/controllers/gamification.js:234-243 | once a record has completed, no later report completes it again, so the XP reward is paid once per record |
| Gamification.LowerReportKeepsCompletion | home/ubuntu/mentor-app/server/controllers/gamification.js:231-239 | a lower report after completion lowers the stored progress but keeps completed and the first completion date |
| Gamification.AwardXp | home/ubuntu/mentor-app/server/controllers/gamification.js:243-251 | XP grows by the reward; the level rises by exactly one iff the next level exists and the new XP reaches its threshold, and otherwise stays |
| Gamification.MockLadder | home/ubuntu/mentor-app/server/controllers/gamification.js:430-436 | the five-level mock table is a valid level table |
| Gamification.LevelUpIsSingleStep | home/ubuntu/mentor-app/server/controllers/gamification.js:246-251 | 90 XP plus a 260 reward at level 1 reaches the level-3 threshold yet only level 2 |
| Gamification.NoLevelPastTheTable | home/ubuntu/mentor-app/server/controllers/gamification.js:247-249 | at the top level of the mock table no award raises the level |
| Gamification.GrantBadge | home/ubuntu/mentor-app/server/controllers/gamification.js:258-274 | afterwards the user holds the badge; an existing row leaves the list unchanged, otherwise one row is appended; at most one row per pair is kept |
| Gamification.StoreProgress | home/ubuntu/mentor-app/server/controllers/gamification.js:277 | a found record is saved in place, a new one appended, and one record per pair is kept |
| Gamification.RespondAsWritten | home/ubuntu/mentor-app/server/controllers/gamification.js:279-295 | on the completion path the reply is the 500 of the catch block; otherwise a 200 |
| Gamification.Respond | home/ubuntu/mentor-app/server/controllers/gamification.js:279-289 | the intended reply: 200 with the stored progress and completion, xpAwarded the reward only on completion, levelUp exactly when the level rose |
| Gamification.RepliesDifferOnlyOnCompletion | home/ubuntu/mentor-app/server/controllers/gamification.js:287-288 | the two replies differ exactly on the completion path |
| Gamification.UpdateAchievementProgress | home/ubuntu/mentor-app/server/controllers/gamification.js:195-297 | no progress gives 400 and an unknown achievement 404, both with no change; otherwise the record is found or created, advanced and saved; on completion the XP, level and badge updates follow; badges, achievements and levels never change |
| Gamification.AwardCompletion | home/ubuntu/mentor-app/server/controllers/gamification.js:241-274 | the caller gains the reward's XP with the single-step level check, the badge reward is granted unless already held, and the progress records are untouched |
| Gamification.AwardBadge | home/ubuntu/mentor-app/server/controllers/gamification.js:304-394 | a non-admin gets 403, a missing user id 400, an unknown badge or user 404, a held badge 400, each with no change; otherwise one badge row is appended, XP and the level check follow only for a positive reward, and the reply is 201 |
| Gamification.GamificationProfile | home/ubuntu/mentor-app/server/controllers/gamification.js:22-37 | the caller's level and XP; nextLevelXp is present iff the next level exists, and is its threshold; the rank is the caller's 1-based position in the XP order |
| Gamification.RankBetweenTies | home/ubuntu/mentor-app/server/controllers/gamification.js:29-30 | the rank comes after every user with more XP and within the users with at least as much |
| Gamification.Leaderboard | home/ubuntu/mentor-app/server/controllers/gamification.js:77-132 | a negative skip is a 500; otherwise at most `limit` rows after the skip, each ranked skip + index + 1 at its position in the order, with pages the ceiling of total over limit |
| Gamification.Row | home/ubuntu/mentor-app/server/controllers/gamification.js:105-122 | the row of the user at position k carries rank k + 1 and that user's XP and level |
| Gamification.PagesAreConsecutive | home/ubuntu/mentor-app/server/controllers/gamification.js:80-121 | a full page is followed by a page whose first rank is one more than its last |
| GamificationModel.EnumNamesRoundTrip | home/ubuntu/mentor-app/server/models/Gamification.js:18-55 | each enumeration accepts the name of every value it declares, and reads it back as that value |
| GamificationModel.EnumParseIsName | home/ubuntu/mentor-app/server/models/Gamification.js:18-55 | a string an enumeration accepts is exactly the name of the value it reads as, so no other string passes |
| GamificationModel.NewBadge | home/ubuntu/mentor-app/server/models/Gamification.js:5-40 | a badge is created iff name, description, icon, a listed category and requirements are given and any rarity is listed; rarity defaults to common and xpReward to 50 |
| GamificationModel.NewAchievement | home/ubuntu/mentor-app/server/models/Gamification.js:43-73 | an achievement is created iff name, description, a listed category, maxProgress and xpReward are given; badgeReward is optional and kept as given |
| GamificationModel.NewUserAchievement | home/ubuntu/mentor-app/server/models/Gamification.js:76-102 | a new progress record has progress 0, is not completed and has no completion date |
| GamificationModel.NewUserBadge | home/ubuntu/mentor-app/server/models/Gamification.js:105-120 | a new earned badge holds the user and badge and is dated now |
| GamificationModel.InsertLevel | home/ubuntu/mentor-app/server/models/Gamification.js:123-132 | a level is inserted iff its number and xpRequired are given and the number is new; the table stays unique and every other row is kept |
| GamificationModel.SaveRow | home/ubuntu/mentor-app/server/models/Gamification.js:76-120 | saving a badge award or a progress record appends it whatever the list holds, as neither schema has a unique index |
| GamificationModel.DuplicateBadgeAccepted | home/ubuntu/mentor-app/server/models/Gamification.js:105-120 | two saves of the same user and badge leave two rows for that pair |
| Paging.Pages | home/ubuntu/mentor-app/server/controllers/gamification.js:132 | for a positive limit, the page count p satisfies (p-1)*limit < total <= p*limit; a zero limit gives NaN or Infinity, a negative one a non-positive count |
| Paging.PageOfIndex | home/ubuntu/mentor-app/server/controllers/social.js:28-46 | every document lies on exactly one page, and that page is within the reported page count |
| Paging.Take | home/ubuntu/mentor-app/server/controllers/social.js:33-34 | a query returns at most the available documents: all of them for limit 0, otherwise at most the absolute limit |
| Paging.Window | home/ubuntu/mentor-app/server/controllers/gamification.js:95-99 | skip-then-limit returns a contiguous run of the ordered documents, starting at the skip |
| Paging.WindowsTile | home/ubuntu/mentor-app/server/controllers/social.js:28-34 | two consecutive pages of one size together are the double-size window from the first page's skip |
| ChatRooms.ChatDb.constructor | home/ubuntu/mentor-app/server/controllers/chatrooms.js:1-2 | an empty room and message store over the given users starts valid |
| ChatRooms.FindRoom | home/ubuntu/mentor-app/server/controllers/chatrooms.js:40 | the index found holds a room with that id, and -1 means no room has it |
| ChatRooms.GetChatRoom | home/ubuntu/mentor-app/server/controllers/chatrooms.js:38-67 | the room is returned iff it exists and the caller is among its participants; a missing room is 404, a non-participant 403 |
| ChatRooms.FoundAllIff | home/ubuntu/mentor-app/server/controllers/chatrooms.js:115-122 | the existence check `users.length === participants.length` passes iff every id names a user and no id repeats |
| ChatRooms.WithCaller | home/ubuntu/mentor-app/server/controllers/chatrooms.js:109-112 | the caller is in the list afterwards; a list that held the caller is unchanged, otherwise the caller is appended |
| ChatRooms.GroupRoom | home/ubuntu/mentor-app/server/controllers/chatrooms.js:124-137 | the group room lists exactly the given users, the creator is the only admin and nobody is a moderator; distinct users give a well-formed room |
| ChatRooms.CreateGroupChatRoom | home/ubuntu/mentor-app/server/controllers/chatrooms.js:90-156 | no name or no participants is 400, an unknown or repeated user 400, each with no change; otherwise the room with the creator added is appended and returned with 201 |
| ChatRooms.VoiceRoom | home/ubuntu/mentor-app/server/controllers/chatrooms.js:175-211 | the voice room lists the creator first as admin and the others as members; the call is live with only the creator in it |
| ChatRooms.CreateVoiceRoom | home/ubuntu/mentor-app/server/controllers/chatrooms.js:163-231 | no name is 400 and a non-empty list naming an unknown or repeated user is 400, with no change; otherwise the room, with the creator filtered out of the others and the schedule defaulting to now, is appended and returned with 201 |
| ChatRooms.Join | home/ubuntu/mentor-app/server/controllers/chatrooms.js:249-290 | a non-voice room, an ended call or a caller already in the call is refused; otherwise a newcomer becomes a member, the caller is appended once to the call and lastActivity is refreshed, nothing else changing |
| ChatRooms.Leave | home/ubuntu/mentor-app/server/controllers/chatrooms.js:335-361 | a non-voice room or a caller not in the call is refused; otherwise the caller is removed, everyone else kept, and the call stays live iff someone is left |
| ChatRooms.EndedCallStaysEnded | home/ubuntu/mentor-app/server/controllers/chatrooms.js:257-262 | once a call has ended no join succeeds and no leave revives it (also lines 356-358) |
| ChatRooms.LeaveUndoesJoin | home/ubuntu/mentor-app/server/controllers/chatrooms.js:286-287 | leaving right after a join restores the call's list and leaves the call live (also lines 350-358) |
| ChatRooms.JoinVoiceRoom | home/ubuntu/mentor-app/server/controllers/chatrooms.js:238-317 | a missing room is 404 with no change; otherwise the reply is the join's and only a successful join saves the room in its place |
| ChatRooms.LeaveVoiceRoom | home/ubuntu/mentor-app/server/controllers/chatrooms.js:324-388 | a missing room is 404 with no change; otherwise the reply is the leave's and only a successful leave saves the room in its place |
| ChatRooms.AddMissing | home/ubuntu/mentor-app/server/controllers/chatrooms.js:438-451 | existing entries are kept as a prefix; afterwards every listed user is a participant, the users are exactly the old ones plus the listed ones, and each new entry is a member |
| ChatRooms.AddMissingDistinct | home/ubuntu/mentor-app/server/controllers/chatrooms.js:440-450 | adding only missing users never lists a user twice |
| ChatRooms.WithParticipants | home/ubuntu/mentor-app/server/controllers/chatrooms.js:438-453 | the room with the missing users appended keeps its well-formedness |
| ChatRooms.AppendMissing | home/ubuntu/mentor-app/server/controllers/chatrooms.js:438-451 | the for-of loop computes exactly the participants AddMissing specifies |
| ChatRooms.AddParticipants | home/ubuntu/mentor-app/server/controllers/chatrooms.js:395-470 | no list is 400, a missing room 404, a non-admin caller 403, an unknown or repeated user 400, each with no change; otherwise the missing users are appended and the room returned with 200 |
| ChatModel.Users | home/ubuntu/mentor-app/server/models/ChatRoom.js:15-34 | the users of a participant list, one per entry, in order |
| ChatModel.UsersAppend | home/ubuntu/mentor-app/server/controllers/chatrooms.js:279-287 | appending an entry appends its user |
| ChatModel.NewMember | home/ubuntu/mentor-app/server/controllers/chatrooms.js:279-283 | an entry added by a handler is a member for that user |
| ChatModel.NewRoom | home/ubuntu/mentor-app/server/models/ChatRoom.js:5-84 | a new room has no last message, no live call and nobody in it, and is dated now |
| ChatModel.AttachmentTypeNames | home/ubuntu/mentor-app/server/models/Message.js:23-32 | the attachment types are exactly the four names |
| ChatModel.NewAttachment | home/ubuntu/mentor-app/server/models/Message.js:23-32 | an attachment is valid iff its type is one of the four and it has a url |
| ChatModel.NewAttachments | home/ubuntu/mentor-app/server/models/Message.js:23-32 | a list is valid iff every attachment is, and is then kept entry by entry |
| ChatModel.NewMessage | home/ubuntu/mentor-app/server/models/Message.js:4-54 | a message saves iff sender and content are given, every attachment is valid and there is a recipient or a room; it starts unread; with neither recipient nor room the hook's error is returned |
| ChatModel.AttachmentsOnlyRefused | home/ubuntu/mentor-app/server/models/Message.js:19-22 | a message with only attachments and no content is refused for missing content |
| Messages.RoomMessages | home/ubuntu/mentor-app/server/controllers/messages.js:35-37 | the room's messages sorted oldest first: a permutation of the messages stored for that room, and only those |
| Messages.RoomMessagesComplete | home/ubuntu/mentor-app/server/controllers/messages.js:35-37 | every stored message of the room is listed, and messages with the same creation time keep their stored order |
| Messages.GetChatRoomMessages | home/ubuntu/mentor-app/server/controllers/messages.js:10-59 | a missing room is 404 and a caller outside the room 403; the messages are returned with 200 iff the room exists and lists the caller |
| Messages.FindDirect | home/ubuntu/mentor-app/server/controllers/messages.js:69-77 | the index found holds a direct room listing both users, and -1 means no such room exists |
| Messages.DirectRoom | home/ubuntu/mentor-app/server/controllers/messages.js:90-98 | the new direct room lists the caller then the target, both as members, is named after both and is well formed |
| Messages.SelfConversation | home/ubuntu/mentor-app/server/controllers/messages.js:69-98 | a conversation with oneself matches any direct room of the caller, and a new one lists the caller twice |
| Messages.FindOrCreateDirect | home/ubuntu/mentor-app/server/controllers/messages.js:69-101 | an existing direct room is reused with no change; with none, an unknown target is 404 with no change, otherwise one direct room is appended |
| Messages.GetDirectMessages | home/ubuntu/mentor-app/server/controllers/messages.js:66-131 | an unknown target with no room is 404 with no change; otherwise a direct room of the two users with its messages oldest first, with 200 |
| Messages.Touch | home/ubuntu/mentor-app/server/controllers/messages.js:183-195 | the room's last message is the new one and its activity now; only the sender's first entry is re-stamped, and the user list is kept |
| Messages.SendChatRoomMessage | home/ubuntu/mentor-app/server/controllers/messages.js:138-219 | no content and no attachments is 400, a missing room 404, a non-participant 403, a message refused by the schema 500, each with no change; otherwise the message is appended, the room touched and the reply 201 |
| Messages.Post | home/ubuntu/mentor-app/server/controllers/messages.js:180-195 | saving appends the message and touches the room, keeping the store well formed |
| Messages.SendDirectMessage | home/ubuntu/mentor-app/server/controllers/messages.js:226-324 | no body is 400 and an unknown target with no room 404, with no change; a request with content, a sender, valid attachments and an existing direct room or a known target succeeds with 201; the message is appended addressed to the target and the room, found or newly appended, is touched by it with every other room kept; a message refused by the schema is a 500 that keeps a room just created and adds no message |
| Messages.ReadAll | home/ubuntu/mentor-app/server/controllers/messages.js:343-355 | exactly the listed unread messages addressed to the caller become read at now, the rest are kept, and the count is the number changed |
| Messages.ReadAllTwice | home/ubuntu/mentor-app/server/controllers/messages.js:343-355 | a second identical request changes nothing and reports 0 |
| Messages.ReadAllOnlyOwn | home/ubuntu/mentor-app/server/controllers/messages.js:345-347 | a message not addressed to the caller is never marked |
| Messages.MarkMessagesAsRead | home/ubuntu/mentor-app/server/controllers/messages.js:331-365 | a missing or empty id list is 400 with no change; otherwise the messages are marked and the count changed is returned with 200 |
| Profiles.Truthy | home/ubuntu/mentor-app/server/controllers/profile.js:45-48 | a string field is copied iff the body gives a non-empty value, and is then copied unchanged |
| Profiles.ListField | home/ubuntu/mentor-app/server/controllers/profile.js:54-62 | a list field is present iff the body gives a non-empty value; it then has one entry per comma-separated piece, each trimmed |
| Profiles.ListFieldJoin | home/ubuntu/mentor-app/server/controllers/profile.js:54-62 | trimmed items without commas, joined with commas, read back as the same list |
| Profiles.BuildFields | home/ubuntu/mentor-app/server/controllers/profile.js:41-70 | each string field is set iff truthy, a zero rate is dropped, skills are taken as given, the three lists are split and trimmed, and the links object holds exactly the links given |
| Profiles.ApplyFields | home/ubuntu/mentor-app/server/controllers/profile.js:76-81 | every field given replaces the stored one, the links object is replaced whole, and the owner, the three entry lists, both follow lists and the save time are kept |
| Profiles.ApplyFieldsIdempotent | home/ubuntu/mentor-app/server/controllers/profile.js:76-81 | the same update sent twice leaves the profile as one update did |
| Profiles.UpdateDropsOmittedLinks | home/ubuntu/mentor-app/server/controllers/profile.js:65-81 | a link the update does not give is erased from the profile |
| Profiles.NewProfile | home/ubuntu/mentor-app/server/models/Profile.js:5-123 | a new profile is saved iff the schema's defaults with the fields applied pass its enumerations, bio length and skill checks; it then has empty lists and is dated now |
| Profiles.Blank | home/ubuntu/mentor-app/server/models/Profile.js:11-116 | the schema defaults: role student, availability limited, rate 0, no bio and every list empty |
| Profiles.EmptyRequestCreatesDefaults | home/ubuntu/mentor-app/server/controllers/profile.js:90-91 | a request with no truthy field creates the default profile |
| Profiles.Unshift | home/ubuntu/mentor-app/server/controllers/profile.js:199-201 | the entry goes to the front of its own list, the other two lists are kept and the save stamps the time |
| Profiles.NewestFirst | home/ubuntu/mentor-app/server/controllers/profile.js:199 | after two additions the later entry is first, then the earlier one, then the old list (also lines 233, 267) |
| Profiles.Follow | home/ubuntu/mentor-app/server/controllers/profile.js:328-333 | the target is appended to the caller's following and the caller to the target's followers; every other profile is kept and the follow graph stays well formed |
| Profiles.FollowKeepsLists | home/ubuntu/mentor-app/server/controllers/profile.js:310-333 | a follow that passed the checks leaves no list with a duplicate, an unknown user or the owner |
| Profiles.FollowKeepsMutual | home/ubuntu/mentor-app/server/controllers/profile.js:328-333 | after a follow, following and followers still mirror each other |
| Profiles.Unfollow | home/ubuntu/mentor-app/server/controllers/profile.js:392-401 | every occurrence of the target leaves the caller's following and of the caller the target's followers; every other profile is kept and the graph stays well formed |
| Profiles.UnfollowKeepsGraph | home/ubuntu/mentor-app/server/controllers/profile.js:392-401 | the graph invariant holds after an unfollow |
| Profiles.UnfollowKeepsLists | home/ubuntu/mentor-app/server/controllers/profile.js:392-401 | an unfollow leaves no list with a duplicate, an unknown user or the owner |
| Profiles.UnfollowKeepsMutual | home/ubuntu/mentor-app/server/controllers/profile.js:392-401 | after an unfollow, following and followers still mirror each other |
| Profiles.UnfollowUndoesFollow | home/ubuntu/mentor-app/server/controllers/profile.js:328-333 | an unfollow right after a follow restores both lists; only the save times differ (also lines 392-401) |
| Profiles.ReplaceKeepsGraph | home/ubuntu/mentor-app/server/controllers/profile.js:76-81 | replacing a profile by one with the same owner and the same follow lists keeps the graph |
| Profiles.InsertKeepsGraph | home/ubuntu/mentor-app/server/controllers/profile.js:90-91 | adding a new user's profile with no follows keeps the graph |
| Profiles.ProfileDb.constructor | home/ubuntu/mentor-app/server/models/Profile.js:5-117 | an empty profile collection starts valid |
| Profiles.CreateOrUpdateProfile | home/ubuntu/mentor-app/server/controllers/profile.js:38-104 | an existing profile is updated with the fields and returned with 200; otherwise the new profile is inserted with 201, or a 500 with no change if it fails validation |
| Profiles.AddEntry | home/ubuntu/mentor-app/server/controllers/profile.js:187-282 | a caller without a profile gets 404 with no change; otherwise the entry is put at the front of its list and the profile returned with 200 |
| Profiles.FollowUser | home/ubuntu/mentor-app/server/controllers/profile.js:289-354 | self-follow is 400, a missing own profile 404, an existing follow 400, a missing target 404, each with no change; it succeeds exactly when none of these applies, and then applies the follow |
| Profiles.UnfollowUser | home/ubuntu/mentor-app/server/controllers/profile.js:361-422 | a missing own profile is 404 and a target not followed 400, with no change; it succeeds exactly when the caller follows the target, and then applies the unfollow |
| Social.WhitelistsAreTheNames | home/ubuntu/mentor-app/server/controllers/social.js:70-128 | the platform whitelist accepts exactly the five platform names and the type whitelist exactly the three type names |
| Social.Like | home/ubuntu/mentor-app/server/controllers/social.js:201-208 | liked flips; a like adds one, an unlike takes one away but not below zero, so the count stays non-negative; nothing else changes |
| Social.Max0 | home/ubuntu/mentor-app/server/controllers/social.js:207 | the result is at least the argument and is either 0 or the argument |
| Social.LikeThenUnlike | home/ubuntu/mentor-app/server/controllers/social.js:201-208 | liking then unliking a post that was not liked restores it |
| Social.UnlikeAtZero | home/ubuntu/mentor-app/server/controllers/social.js:207 | unliking at 0 keeps 0, so liking again gives 1 rather than restoring the earlier count |
| Social.Save | home/ubuntu/mentor-app/server/controllers/social.js:319 | saved flips and nothing else changes |
| Social.SaveTwice | home/ubuntu/mentor-app/server/controllers/social.js:319 | saving twice restores the post |
| Social.NewComment | home/ubuntu/mentor-app/server/controllers/social.js:261-270 | the comment carries the caller as author, the text, the time, and the id local_ followed by the time |
| Social.AddComment | home/ubuntu/mentor-app/server/controllers/social.js:272-274 | the comment is appended, the comment count grows by one, commented becomes true, and likes, shares and the toggles are kept |
| Social.InteractionsIndependent | home/ubuntu/mentor-app/server/controllers/social.js:201-208 | like and save commute with commenting and with each other (also lines 272-274, 319) |
| Social.Access | home/ubuntu/mentor-app/server/controllers/social.js:181-198 | a success is the first post with the id and it belongs to the caller; a failure is 404 or 403 |
| Social.AccessNotFound | home/ubuntu/mentor-app/server/controllers/social.js:183-190 | the 404 is given exactly when no post has the id |
| Social.AccessForbidden | home/ubuntu/mentor-app/server/controllers/social.js:192-198 | the 403 is given exactly when the first post with the id belongs to someone else |
| Social.Selected | home/ubuntu/mentor-app/server/controllers/social.js:14-32 | the caller's posts passing the optional platform and type filters, newest first, each exactly as often as stored |
| Social.Feed | home/ubuntu/mentor-app/server/controllers/social.js:9-57 | a negative skip is a 500; otherwise a 200 whose data is the run of the selected posts from the skip, of at most the limit, with the total and the page count |
| Social.FeedPageSound | home/ubuntu/mentor-app/server/controllers/social.js:14-34 | every post on a page is the caller's, passes the filters, and the page is newest first |
| Social.NoLimitShowsAll | home/ubuntu/mentor-app/server/controllers/social.js:28-34 | with limit 0 the first page holds every selected post |
| Social.PostsByPlatform | home/ubuntu/mentor-app/server/controllers/social.js:64-114 | an unknown platform is 400 with the message naming it; otherwise the feed filtered by that platform |
| Social.PostsByType | home/ubuntu/mentor-app/server/controllers/social.js:121-171 | an unknown type is 400 with the message naming it; otherwise the feed filtered by that type |
| Social.PlatformPageOnlyThatPlatform | home/ubuntu/mentor-app/server/controllers/social.js:64-91 | a platform page only shows the caller's posts from that platform |
| Social.SocialDb.constructor | home/ubuntu/mentor-app/server/models/SocialMediaPost.js:35-48 | a store whose like and comment counters (default 0) are non-negative starts valid |
| Social.LikePost | home/ubuntu/mentor-app/server/controllers/social.js:178-223 | the access failure is returned with no change; otherwise the post is liked in place and returned with 200, and no counter goes negative |
| Social.CommentOnPost | home/ubuntu/mentor-app/server/controllers/social.js:230-289 | missing text is 400 before any lookup; then the access failure with no change; otherwise the comment is added in place and the post returned with 200 |
| Social.SavePost | home/ubuntu/mentor-app/server/controllers/social.js:296-334 | the access failure is returned with no change; otherwise saved flips in place and the post is returned with 200 |
| Social.LinkSocialAccount | home/ubuntu/mentor-app/server/controllers/social.js:341-387 | an unknown platform or a missing token is 400 and a caller with no user 500, with no change; it succeeds exactly otherwise, and sets that platform's flag true |
| Social.UnlinkSocialAccount | home/ubuntu/mentor-app/server/controllers/social.js:394-429 | an unknown platform is 400 and a caller with no user 500, with no change; it succeeds exactly otherwise, and sets that platform's flag false |
| Social.SetLinked | home/ubuntu/mentor-app/server/controllers/social.js:366-411 | the platform's flag takes the value and every other flag is kept |
| Social.LinkUnlinkLastWins | home/ubuntu/mentor-app/server/controllers/social.js:366-411 | of a link and an unlink the later one decides the flag |
| TodoSlice.ToggleCompleted | home/ubuntu/mentor-app/client/shared/redux/slices/todoSlice.js:43 | completed becomes the boolean negation of the old value's truthiness; every other field is kept |
| TodoSlice.ToggleCompletedTwice | home/ubuntu/mentor-app/client/shared/redux/slices/todoSlice.js:43 | on a todo whose completed is a boolean, two toggles restore it |
| TodoSlice.ApplySuggestion | home/ubuntu/mentor-app/client/shared/redux/slices/todoSlice.js:52-65 | an unknown suggestion changes nothing; otherwise its changes are merged into the first todo with the id, if any, and every suggestion with that id is dropped |
| TodoSlice.AppliedSuggestionRemoved | home/ubuntu/mentor-app/client/shared/redux/slices/todoSlice.js:63 | after applying, no suggestion with that id is left, whether or not the todo existed |
| TodoSlice.SuggestionForMissingTodo | home/ubuntu/mentor-app/client/shared/redux/slices/todoSlice.js:58-61 | a suggestion for a todo that is not there leaves the todos unchanged |
| TodoSlice.DeleteKeepsOthers | home/ubuntu/mentor-app/client/shared/redux/slices/todoSlice.js:37-39 | deleting removes every todo with the id and keeps the others in order |
| TodoSlice.UpdateTouchesFirstMatchOnly | home/ubuntu/mentor-app/client/shared/redux/slices/todoSlice.js:30-36 | an unknown id changes nothing; otherwise only the first todo with the id is merged with the updates |
| TodoSlice.ToggleTodoTwice | home/ubuntu/mentor-app/client/shared/redux/slices/todoSlice.js:40-45 | toggling the same id twice restores the list when completed is boolean |
| TodoSlice.TodoState.constructor | home/ubuntu/mentor-app/client/shared/redux/slices/todoSlice.js:3-9 | no todos, not loading, no error, filter all, no suggestions |
| TodoSlice.TodoState.FetchTodosStart | home/ubuntu/mentor-app/client/shared/redux/slices/todoSlice.js:15-18 | loading is set and the error cleared; everything else kept |
| TodoSlice.TodoState.FetchTodosSuccess | home/ubuntu/mentor-app/client/shared/redux/slices/todoSlice.js:19-22 | loading ends and the todos are the payload; the error is kept |
| TodoSlice.TodoState.FetchTodosFailure | home/ubuntu/mentor-app/client/shared/redux/slices/todoSlice.js:23-26 | loading ends and the error is the payload; the todos are kept |
| TodoSlice.TodoState.AddTodo | home/ubuntu/mentor-app/client/shared/redux/slices/todoSlice.js:27-29 | the todo is appended and nothing else changes |
| TodoSlice.TodoState.UpdateTodo | home/ubuntu/mentor-app/client/shared/redux/slices/todoSlice.js:30-36 | the updates are merged into the first todo with the id |
| TodoSlice.TodoState.DeleteTodo | home/ubuntu/mentor-app/client/shared/redux/slices/todoSlice.js:37-39 | the todos with the id are removed |
| TodoSlice.TodoState.ToggleTodoComplete | home/ubuntu/mentor-app/client/shared/redux/slices/todoSlice.js:40-45 | the first todo with the id has completed flipped |
| TodoSlice.TodoState.SetFilter | home/ubuntu/mentor-app/client/shared/redux/slices/todoSlice.js:46-48 | only the filter changes |
| TodoSlice.TodoState.ReceiveAiSuggestions | home/ubuntu/mentor-app/client/shared/redux/slices/todoSlice.js:49-51 | only the suggestions change |
| TodoSlice.TodoState.ApplyAiSuggestion | home/ubuntu/mentor-app/client/shared/redux/slices/todoSlice.js:52-65 | the todos and suggestions become the value ApplySuggestion gives; the rest is kept |
| ProjectsSlice.UpdateCurrent | home/ubuntu/mentor-app/client/shared/redux/slices/projectsSlice.js:43-46 | the current project takes the updates exactly when it is set and has the id; otherwise it is kept |
| ProjectsSlice.ClearCurrent | home/ubuntu/mentor-app/client/shared/redux/slices/projectsSlice.js:52-55 | the current project is cleared exactly when it is unset or is the deleted one, and is otherwise kept |
| ProjectsSlice.UpdateKeepsCurrentInStep | home/ubuntu/mentor-app/client/shared/redux/slices/projectsSlice.js:37-48 | when the current project equals its entry in the list, both still agree after an update |
| ProjectsSlice.UnknownUpdateIsNoop | home/ubuntu/mentor-app/client/shared/redux/slices/projectsSlice.js:39-40 | an update whose id matches no project changes neither the list nor the current project |
| ProjectsSlice.RemoveById | home/ubuntu/mentor-app/client/shared/redux/slices/projectsSlice.js:50-80 | removing by id leaves no entry with the id, keeps every other entry in order, and adds nothing |
| ProjectsSlice.ProjectsState.constructor | home/ubuntu/mentor-app/client/shared/redux/slices/projectsSlice.js:3-10 | no projects, no current project, not loading, no error, no milestones and no collaborators |
| ProjectsSlice.ProjectsState.FetchProjectsStart | home/ubuntu/mentor-app/client/shared/redux/slices/projectsSlice.js:16-19 | loading is set and the error cleared; the rest is kept |
| ProjectsSlice.ProjectsState.FetchProjectsSuccess | home/ubuntu/mentor-app/client/shared/redux/slices/projectsSlice.js:20-23 | loading ends and the projects are the payload |
| ProjectsSlice.ProjectsState.FetchProjectsFailure | home/ubuntu/mentor-app/client/shared/redux/slices/projectsSlice.js:24-27 | loading ends and the error is the payload |
| ProjectsSlice.ProjectsState.SetCurrentProject | home/ubuntu/mentor-app/client/shared/redux/slices/projectsSlice.js:28-33 | the current project is the payload and the milestones and collaborators are emptied |
| ProjectsSlice.ProjectsState.AddProject | home/ubuntu/mentor-app/client/shared/redux/slices/projectsSlice.js:34-36 | the project is appended and nothing else changes |
| ProjectsSlice.ProjectsState.UpdateProject | home/ubuntu/mentor-app/client/shared/redux/slices/projectsSlice.js:37-48 | the first project with the id takes the updates, and the current project too when it has the id; an unknown id keeps the current project |
| ProjectsSlice.ProjectsState.DeleteProject | home/ubuntu/mentor-app/client/shared/redux/slices/projectsSlice.js:49-56 | the projects with the id are removed and the current project cleared if it was that one |
| ProjectsSlice.ProjectsState.FetchMilestonesSuccess | home/ubuntu/mentor-app/client/shared/redux/slices/projectsSlice.js:57-59 | only the milestones change, to the payload |
| ProjectsSlice.ProjectsState.AddMilestone | home/ubuntu/mentor-app/client/shared/redux/slices/projectsSlice.js:60-62 | the milestone is appended and nothing else changes |
| ProjectsSlice.ProjectsState.UpdateMilestone | home/ubuntu/mentor-app/client/shared/redux/slices/projectsSlice.js:63-69 | the first milestone with the id takes the updates |
| ProjectsSlice.ProjectsState.DeleteMilestone | home/ubuntu/mentor-app/client/shared/redux/slices/projectsSlice.js:70-72 | the milestones with the id are removed |
| ProjectsSlice.ProjectsState.FetchCollaboratorsSuccess | home/ubuntu/mentor-app/client/shared/redux/slices/projectsSlice.js:73-75 | only the collaborators change, to the payload |
| ProjectsSlice.ProjectsState.AddCollaborator | home/ubuntu/mentor-app/client/shared/redux/slices/projectsSlice.js:76-78 | the collaborator is appended and nothing else changes |
| ProjectsSlice.ProjectsState.RemoveCollaborator | home/ubuntu/mentor-app/client/shared/redux/slices/projectsSlice.js:79-81 | the collaborators with the id are removed |
| SocialMediaSlice.RepeatedLikeCounts | home/ubuntu/mentor-app/client/shared/redux/slices/socialMediaSlice.js:46-59 | n likes of the same post add n to its count, as nothing checks whether it was already liked |
| SocialMediaSlice.LikeThenUnlike | home/ubuntu/mentor-app/client/shared/redux/slices/socialMediaSlice.js:49-58 | a like followed by an unlike of the same post restores its count |
| SocialMediaSlice.CommentKeepsCountsInStep | home/ubuntu/mentor-app/client/shared/redux/slices/socialMediaSlice.js:65-70 | when every post's count equals its number of comments, a comment keeps that so |
| SocialMediaSlice.SocialMediaState.constructor | home/ubuntu/mentor-app/client/shared/redux/slices/socialMediaSlice.js:3-14 | empty lists, not loading, no error, tab posts, platform all and sort recent |
| SocialMediaSlice.SocialMediaState.FetchContentStart | home/ubuntu/mentor-app/client/shared/redux/slices/socialMediaSlice.js:20-23 | loading is set and the error cleared; the rest is kept |
| SocialMediaSlice.SocialMediaState.FetchContentSuccess | home/ubuntu/mentor-app/client/shared/redux/slices/socialMediaSlice.js:24-35 | loading ends; only the list the content type names is replaced, and an unknown type replaces none |
| SocialMediaSlice.SocialMediaState.FetchContentFailure | home/ubuntu/mentor-app/client/shared/redux/slices/socialMediaSlice.js:36-39 | loading ends and the error is the payload |
| SocialMediaSlice.SocialMediaState.ChangeTab | home/ubuntu/mentor-app/client/shared/redux/slices/socialMediaSlice.js:40-42 | only the tab changes |
| SocialMediaSlice.SocialMediaState.UpdateFilters | home/ubuntu/mentor-app/client/shared/redux/slices/socialMediaSlice.js:43-45 | the keys given overwrite the filters and the others are kept |
| SocialMediaSlice.SocialMediaState.LikeContent | home/ubuntu/mentor-app/client/shared/redux/slices/socialMediaSlice.js:46-61 | for posts, the first post with the id takes the liked value and its count moves one way; reels, threads and other types are untouched |
| SocialMediaSlice.SocialMediaState.AddComment | home/ubuntu/mentor-app/client/shared/redux/slices/socialMediaSlice.js:62-73 | for posts, the first post with the id gets the comment appended and its count raised by one; reels, threads and other types are untouched |
| AuthSlice.AllUnlinked | home/ubuntu/mentor-app/client/shared/redux/slices/authSlice.js:8-44 | exactly the five platforms, each false |
| AuthSlice.Link | home/ubuntu/mentor-app/client/shared/redux/slices/authSlice.js:46-51 | a platform already listed takes the new value, every other flag is kept, and an unknown platform changes nothing |
| AuthSlice.LinkKeepsPlatforms | home/ubuntu/mentor-app/client/shared/redux/slices/authSlice.js:48 | the flags always cover exactly the five platforms |
| AuthSlice.LinkThenUnlink | home/ubuntu/mentor-app/client/shared/redux/slices/authSlice.js:46-51 | linking then unlinking a platform leaves it unlinked and the others as they were |
| AuthSlice.AuthState.constructor | home/ubuntu/mentor-app/client/shared/redux/slices/authSlice.js:3-15 | no user, signed out, not loading, no error, every platform unlinked |
| AuthSlice.AuthState.LoginStart | home/ubuntu/mentor-app/client/shared/redux/slices/authSlice.js:21-24 | loading is set and the error cleared |
| AuthSlice.AuthState.LoginSuccess | home/ubuntu/mentor-app/client/shared/redux/slices/authSlice.js:25-30 | signed in with the payload as user, loading ended, error cleared |
| AuthSlice.AuthState.LoginFailure | home/ubuntu/mentor-app/client/shared/redux/slices/authSlice.js:31-34 | loading ends and the error is stored; the user and sign-in flag are kept |
| AuthSlice.AuthState.Logout | home/ubuntu/mentor-app/client/shared/redux/slices/authSlice.js:35-45 | signed out, no user, every platform unlinked; loading and error kept |
| AuthSlice.AuthState.LinkSocialAccount | home/ubuntu/mentor-app/client/shared/redux/slices/authSlice.js:46-51 | the flags become Link of the old flags; nothing else changes |
| AuthSlice.AuthState.UpdateUserProfile | home/ubuntu/mentor-app/client/shared/redux/slices/authSlice.js:52-54 | the user becomes the old user with the payload's keys overwriting, a missing user contributing nothing |
| AuthSlice.UpdateWithoutUser | home/ubuntu/mentor-app/client/shared/redux/slices/authSlice.js:53 | an update with no user signed in yields just the payload |
| Clock.JsRem | home/ubuntu/mentor-app/client/shared/components/PomodoroTimer.js:161 | the truncating remainder lies strictly between -b and b, equals Euclidean % for a non-negative dividend and is non-positive for a negative one |
| Clock.FormatTime | home/ubuntu/mentor-app/client/shared/components/PomodoroTimer.js:159-163 | a non-negative count renders with at least five characters, the third from last a colon |
| Clock.FormatTimeRoundTrip | home/ubuntu/mentor-app/client/shared/components/PomodoroTimer.js:159-163 | the digits before the colon read back as the whole minutes and the two after as the seconds left over |
| Clock.PaddedParse | home/ubuntu/mentor-app/client/shared/components/PomodoroTimer.js:162 | a number rendered and padded to two digits reads back as that number, in exactly two characters below 100 |
| Clock.Display | home/ubuntu/mentor-app/client/shared/components/PomodoroTimer.js:162 | minutes and seconds under 60 shown with a colon read back as themselves |
| Clock.FormatTimeShape | home/ubuntu/mentor-app/mentor/screens/PomodoroScreen.tsx:7-11 | under 100 minutes the display is exactly MM:SS and reads back as minutes and seconds |
| PomodoroTimer.ModeDuration | home/ubuntu/mentor-app/client/shared/components/PomodoroTimer.js:86-97 | each break mode gives its own length, and any other name the work length |
| PomodoroTimer.LongBreakDueIsDivisibility | home/ubuntu/mentor-app/client/shared/components/PomodoroTimer.js:75-128 | for a positive period the JavaScript remainder test is plain divisibility of the count |
| PomodoroTimer.NextMode | home/ubuntu/mentor-app/client/shared/components/PomodoroTimer.js:70-82 | after a break comes work; after work a long break exactly when the count is due, and a short break exactly when it is not (also lines 126-136) |
| PomodoroTimer.DefaultCycle | home/ubuntu/mentor-app/client/shared/components/PomodoroTimer.js:13-18 | with the default settings the fourth and eighth sessions earn a long break and the others a short one (also line 75) |
| PomodoroTimer.SkipAgreesWithCompletion | home/ubuntu/mentor-app/client/shared/components/PomodoroTimer.js:71-79 | skipping a session lands in the mode completing it would (also lines 126-136) |
| PomodoroTimer.Timer.constructor | home/ubuntu/mentor-app/client/shared/components/PomodoroTimer.js:7-25 | inactive, paused, work mode with 25 minutes, default settings, no sessions and no history |
| PomodoroTimer.Timer.SwitchMode | home/ubuntu/mentor-app/client/shared/components/PomodoroTimer.js:100-105 | the new mode with its full length; active but paused; counts, history and settings kept |
| PomodoroTimer.Timer.Complete | home/ubuntu/mentor-app/client/shared/components/PomodoroTimer.js:50-83 | the session goes first in the history with its mode and length, the count grows only after work, and the timer switches to the next mode, paused |
| PomodoroTimer.Timer.Tick | home/ubuntu/mentor-app/client/shared/components/PomodoroTimer.js:31-40 | stopped or paused nothing changes; above one second one second goes; at one or less the session is put first in the history with its mode and length, counted only after work, and the timer moves to the next mode, active but paused, at that mode's full length |
| PomodoroTimer.Timer.StartTimer | home/ubuntu/mentor-app/client/shared/components/PomodoroTimer.js:108-111 | active and running; nothing else changes |
| PomodoroTimer.Timer.PauseTimer | home/ubuntu/mentor-app/client/shared/components/PomodoroTimer.js:114-116 | paused; nothing else changes |
| PomodoroTimer.Timer.ResetTimer | home/ubuntu/mentor-app/client/shared/components/PomodoroTimer.js:119-123 | stopped with the current mode's full length |
| PomodoroTimer.Timer.SkipSession | home/ubuntu/mentor-app/client/shared/components/PomodoroTimer.js:126-136 | the mode completion would pick, with its full length, paused, without counting or recording the session |
| PomodoroTimer.Timer.UpdateSettings | home/ubuntu/mentor-app/client/shared/components/PomodoroTimer.js:139-147 | stopped with the work length on the clock whatever the mode, and the settings panel closed |
| PomodoroTimer.Timer.SettingsChange | home/ubuntu/mentor-app/client/shared/components/PomodoroTimer.js:150-156 | the named setting takes the value, and other names change nothing the timer reads |
| PomodoroTimer.SetSetting | home/ubuntu/mentor-app/client/shared/components/PomodoroTimer.js:152-155 | each of the four setting names replaces exactly its field; any other name leaves the settings |
| ProjectSection.Progress | home/ubuntu/mentor-app/client/shared/components/ProjectSection.js:163-168 | 0 without milestones; otherwise the completed share as a percentage rounded to nearest with halves up, so all done is 100, none done 0, and always within 0..100 |
| ProjectSection.RoundBounds | home/ubuntu/mentor-app/client/shared/components/ProjectSection.js:167 | the integer rounding of 100c/t is the unique r with r - 1/2 <= 100c/t < r + 1/2, within 0..100 |
| ProjectSection.ProgressMonotone | home/ubuntu/mentor-app/client/shared/components/ProjectSection.js:163-168 | completing one more milestone never lowers the progress |
| ProjectSection.RoundMonotone | home/ubuntu/mentor-app/client/shared/components/ProjectSection.js:167 | the rounded percentage grows with the completed count |
| ProjectSection.CountReplace | home/ubuntu/mentor-app/client/shared/components/ProjectSection.js:166 | completing one open milestone raises the completed count by exactly one |
| ProjectSection.WithMilestones | home/ubuntu/mentor-app/client/shared/components/ProjectSection.js:243-283 | the project with the new milestones and its progress recomputed from them; nothing else changes |
| ProjectSection.ToggleTwice | home/ubuntu/mentor-app/client/shared/components/ProjectSection.js:270-292 | toggling the same milestone twice restores the milestones and the progress |
| ProjectSection.NewProject | home/ubuntu/mentor-app/client/shared/components/ProjectSection.js:199-206 | the new project has the clock's id, the title, progress 0, no milestones, and the collaborators split on commas and trimmed, none for an empty field |
| ProjectSection.MilestoneChangeTouchesActiveOnly | home/ubuntu/mentor-app/client/shared/components/ProjectSection.js:252-312 | a milestone change rewrites only the entries with the active project's id |
| ProjectSection.SetProjectField | home/ubuntu/mentor-app/client/shared/components/ProjectSection.js:170-176 | each of the five inputs of the new-project form replaces exactly its own field; any other name leaves the draft |
| ProjectSection.SetMilestoneField | home/ubuntu/mentor-app/client/shared/components/ProjectSection.js:179-185 | each text input of the new-milestone form replaces exactly its own field; any other name leaves the draft |
| ProjectSection.LastInputWins | home/ubuntu/mentor-app/client/shared/components/ProjectSection.js:170-185 | the latest text typed into an input of either form is the one kept |
| ProjectSection.Section.constructor | home/ubuntu/mentor-app/client/shared/components/ProjectSection.js:6-29 | no projects, no active project, empty forms |
| ProjectSection.Section.ProjectInputChange | home/ubuntu/mentor-app/client/shared/components/ProjectSection.js:170-176 | the new-project draft takes SetProjectField of the input; nothing else changes |
| ProjectSection.Section.MilestoneInputChange | home/ubuntu/mentor-app/client/shared/components/ProjectSection.js:179-185 | the new-milestone draft takes SetMilestoneField of the input; nothing else changes |
| ProjectSection.Section.SelectProject | home/ubuntu/mentor-app/client/shared/components/ProjectSection.js:449 | the clicked project of the list becomes active, and nothing else changes |
| ProjectSection.Section.ProjectSubmit | home/ubuntu/mentor-app/client/shared/components/ProjectSection.js:189-224 | a blank title changes nothing; otherwise the new project is appended and made active, and the form reset and hidden |
| ProjectSection.Section.ReplaceActive | home/ubuntu/mentor-app/client/shared/components/ProjectSection.js:252-257 | the entries with the active id become the updated project, which becomes active; the forms are kept |
| ProjectSection.Section.MilestoneSubmit | home/ubuntu/mentor-app/client/shared/components/ProjectSection.js:227-267 | a blank title or no active project changes nothing; otherwise the milestone is appended to the active project, its progress recomputed, and the form reset |
| ProjectSection.Section.ToggleMilestoneComplete | home/ubuntu/mentor-app/client/shared/components/ProjectSection.js:270-292 | the active project's milestones with the id flip, its progress is recomputed, and its entry replaced |
| ProjectSection.Section.DeleteMilestone | home/ubuntu/mentor-app/client/shared/components/ProjectSection.js:295-317 | once confirmed, the active project's milestones with the id are dropped and its progress recomputed; otherwise nothing changes |
| ProjectSection.Section.DeleteProject | home/ubuntu/mentor-app/client/shared/components/ProjectSection.js:320-332 | once confirmed the projects with the id are dropped; a deleted active project is replaced by the first remaining one or none |
| TodoListComponent.TagsOf | home/ubuntu/mentor-app/client/shared/components/TodoList.js:128-177 | no truthy tags field gives an empty list; a non-empty tags string gives its comma-separated pieces, trimmed; the result is always a list |
| TodoListComponent.NewTodo | home/ubuntu/mentor-app/client/shared/components/TodoList.js:124-129 | the todo has every form field, completed false, the parsed tags, and the clock's id unless the form carries one |
| TodoListComponent.EditForm | home/ubuntu/mentor-app/client/shared/components/TodoList.js:144-152 | the edit form holds the todo's title and priority, and its description and due date or the empty string |
| TodoListComponent.EditedTodo | home/ubuntu/mentor-app/client/shared/components/TodoList.js:174-178 | the update carries every form field, the parsed tags, and the id unless the form carries one |
| TodoListComponent.EditClearsTags | home/ubuntu/mentor-app/client/shared/components/TodoList.js:146-178 | the edit form never has a tags field, so a saved edit always sends an empty tags list |
| TodoListComponent.SavedEditLosesTags | home/ubuntu/mentor-app/client/shared/components/TodoList.js:166-185 | saving an edit started from a stored todo leaves that todo with no tags |
| TodoListComponent.FilteredTodos | home/ubuntu/mentor-app/client/shared/components/TodoList.js:205-210 | any filter but completed and active shows every todo; completed shows exactly the completed todos of the list and active exactly the others |
| TodoListComponent.ActiveAndCompletedPartition | home/ubuntu/mentor-app/client/shared/components/TodoList.js:207-208 | every todo shows under exactly one of active and completed |
| TodoListComponent.TodoListView.constructor | home/ubuntu/mentor-app/client/shared/components/TodoList.js:20-34 | both forms empty with medium priority and nothing being edited |
| TodoListComponent.TodoListView.InputChange | home/ubuntu/mentor-app/client/shared/components/TodoList.js:96-102 | only the named field of the new-todo form changes |
| TodoListComponent.TodoListView.EditInputChange | home/ubuntu/mentor-app/client/shared/components/TodoList.js:105-111 | only the named field of the edit form changes |
| TodoListComponent.TodoListView.Submit | home/ubuntu/mentor-app/client/shared/components/TodoList.js:114-141 | a blank title changes nothing; otherwise the new todo is appended to the store and the form reset |
| TodoListComponent.TodoListView.StartEditing | home/ubuntu/mentor-app/client/shared/components/TodoList.js:144-152 | editing the todo's id with the edit form filled from it |
| TodoListComponent.TodoListView.CancelEditing | home/ubuntu/mentor-app/client/shared/components/TodoList.js:155-163 | nothing being edited and the edit form reset |
| TodoListComponent.TodoListView.SaveEditedTodo | home/ubuntu/mentor-app/client/shared/components/TodoList.js:166-185 | a blank title changes nothing; otherwise the update is merged into the first todo with the id and editing ends |
| TodoListComponent.TodoListView.ToggleComplete | home/ubuntu/mentor-app/client/shared/components/TodoList.js:188-190 | the store toggles the first todo with the id |
| TodoListComponent.TodoListView.RemoveTodo | home/ubuntu/mentor-app/client/shared/components/TodoList.js:193-197 | the todos with the id are removed only when confirmed |
| TodoListComponent.TodoListView.ChangeFilter | home/ubuntu/mentor-app/client/shared/components/TodoList.js:200-202 | only the store's filter changes |
| MessagingSystem.OutgoingMessage | home/ubuntu/mentor-app/client/shared/components/MessagingSystem.js:387-398 | the message is the current user's, carries the input as typed and the time, is already read, and has the id new- followed by the clock |
| MessagingSystem.WithLastMessage | home/ubuntu/mentor-app/client/shared/components/MessagingSystem.js:404-416 | the room's last message summarises the sent message and its last activity is the message's time; id, name, kind and participants are kept |
| MessagingSystem.NewChatError | home/ubuntu/mentor-app/client/shared/components/MessagingSystem.js:446-459 | no alert exactly when a direct chat names a recipient and a group or voice room has a name; each failing kind gets its own alert text |
| MessagingSystem.Username | home/ubuntu/mentor-app/client/shared/components/MessagingSystem.js:471-512 | the username is no longer than the name and holds no whitespace and no upper-case ASCII letter |
| MessagingSystem.ParticipantNames | home/ubuntu/mentor-app/client/shared/components/MessagingSystem.js:502-505 | names exist exactly when the field holds a string; each is non-empty, trimmed at both ends and free of commas |
| MessagingSystem.CleanNames | home/ubuntu/mentor-app/client/shared/components/MessagingSystem.js:502-505 | the trimmed non-empty pieces of a comma list are non-blank at both ends and hold no comma |
| MessagingSystem.TrimKeepsOut | home/ubuntu/mentor-app/client/shared/components/MessagingSystem.js:504 | trimming never adds a character |
| MessagingSystem.GroupMembers | home/ubuntu/mentor-app/client/shared/components/MessagingSystem.js:508-518 | one member entry per name, in order, numbered participant-0 onwards, each with the name's username |
| MessagingSystem.DirectRoom | home/ubuntu/mentor-app/client/shared/components/MessagingSystem.js:466-499 | the direct room has the clock id, no last message, the name John Doe & recipient, and exactly the current user and the recipient, both members |
| MessagingSystem.Messaging.constructor | home/ubuntu/mentor-app/client/shared/components/MessagingSystem.js:6-19 | no rooms, no active room, no messages, empty input, the new-chat form closed and at its initial values |
| MessagingSystem.Messaging.MessageInputChange | home/ubuntu/mentor-app/client/shared/components/MessagingSystem.js:372-374 | only the input changes |
| MessagingSystem.Messaging.SelectChatRoom | home/ubuntu/mentor-app/client/shared/components/MessagingSystem.js:366-369 | the room becomes active and the list shows the messages the fetch loaded; the rooms, the input and the new-chat form are kept |
| MessagingSystem.Messaging.SendMessage | home/ubuntu/mentor-app/client/shared/components/MessagingSystem.js:377-430 | blank input changes nothing; otherwise the message is appended, the active room and its list entries take it as last message, and the input is cleared |
| MessagingSystem.Messaging.NewChatInputChange | home/ubuntu/mentor-app/client/shared/components/MessagingSystem.js:433-439 | only the named form field changes |
| MessagingSystem.SetChatField | home/ubuntu/mentor-app/client/shared/components/MessagingSystem.js:435-438 | each of the five form fields is replaced by its own name; any other name changes nothing the form reads |
| MessagingSystem.SendTouchesActiveRoomOnly | home/ubuntu/mentor-app/client/shared/components/MessagingSystem.js:422-424 | a send changes no room other than the active one |
| MessagingSystem.GroupNeedsTypedParticipants | home/ubuntu/mentor-app/client/shared/components/MessagingSystem.js:502-505 | a group whose participants field was never typed into fails at the split; typing anything lets the names parse |
| UserProfileView.SetSkillField | home/ubuntu/mentor-app/client/shared/components/UserProfile.js:223-226 | the level and years fields take the parsed integer of the text (NaN when it does not parse), the name takes the text, and other fields leave the row |
| UserProfileView.TypedLevelIsKept | home/ubuntu/mentor-app/client/shared/components/UserProfile.js:225 | a level typed as a number's decimal text is stored as that number |
| UserProfileView.SpliceOne | home/ubuntu/mentor-app/client/shared/components/UserProfile.js:236-237 | an index inside the list removes exactly that row; an index past the end removes nothing; a negative index counts back from the end |
| UserProfileView.SpliceStart | home/ubuntu/mentor-app/client/shared/components/UserProfile.js:237 | splice starts at a non-negative index as given, and at a negative one counted back from the end, clamped at 0 |
| UserProfileView.Submitted | home/ubuntu/mentor-app/client/shared/components/UserProfile.js:183-200 | role, bio, skills and availability come from the form, the three lists are split on commas and trimmed, the links are the form's five, and the follow lists are kept |
| UserProfileView.EmptyFieldSavesOneBlank | home/ubuntu/mentor-app/client/shared/components/UserProfile.js:188 | an emptied list field is saved as a list of one empty entry, not as an empty list |
| UserProfileView.SetFormField | home/ubuntu/mentor-app/client/shared/components/UserProfile.js:167-173 | each text input of the edit form replaces exactly its own field; any other name leaves the form |
| UserProfileView.TypedFieldSaved | home/ubuntu/mentor-app/client/shared/components/UserProfile.js:167-200 | text typed into the bio, the role or a link is what a submit saves, and a list input is saved split and trimmed |
| UserProfileView.ProfileView.constructor | home/ubuntu/mentor-app/client/shared/components/UserProfile.js:6-10 | a loaded profile shown, not editing, with the form filled (also lines 140-154) |
| UserProfileView.ProfileView.InputChange | home/ubuntu/mentor-app/client/shared/components/UserProfile.js:167-173 | the edit form takes SetFormField of the input; the profile and the editing flag are kept |
| UserProfileView.ProfileView.AddSkill | home/ubuntu/mentor-app/client/shared/components/UserProfile.js:207-218 | a blank skill row (level 1, no experience) is appended; nothing else changes |
| UserProfileView.ProfileView.UpdateSkill | home/ubuntu/mentor-app/client/shared/components/UserProfile.js:221-232 | the row at the index gets the field and no other row changes |
| UserProfileView.ProfileView.RemoveSkill | home/ubuntu/mentor-app/client/shared/components/UserProfile.js:235-243 | the skills become the splice of one row at the index |
| UserProfileView.ProfileView.Submit | home/ubuntu/mentor-app/client/shared/components/UserProfile.js:176-204 | the profile becomes the submitted one and editing ends |
| UserProfileView.ProfileView.FollowUser | home/ubuntu/mentor-app/client/shared/components/UserProfile.js:246-257 | the current user is appended to the followers, even when already there |
| UserProfileView.ProfileView.UnfollowUser | home/ubuntu/mentor-app/client/shared/components/UserProfile.js:260-271 | every occurrence of the current user leaves the followers |
| UserProfileView.FollowTwiceUnfollowOnce | home/ubuntu/mentor-app/client/shared/components/UserProfile.js:253-267 | two follows list the current user twice more, and one unfollow removes both |
| VoiceRoom.IsUserActive | home/ubuntu/mentor-app/client/shared/components/VoiceRoom.js:232-235 | true exactly when the first entry of the current user exists and is active |
| VoiceRoom.ActiveAfterMarking | home/ubuntu/mentor-app/client/shared/components/VoiceRoom.js:127-137 | after marking every entry of the user, the user is active exactly when marked active and the list holds an entry of theirs (also lines 232-235) |
| VoiceRoom.ElapsedMinutes | home/ubuntu/mentor-app/client/shared/components/VoiceRoom.js:221-223 | the whole minutes m with m minutes at most the elapsed time and m + 1 minutes more |
| VoiceRoom.CalculateDuration | home/ubuntu/mentor-app/client/shared/components/VoiceRoom.js:218-229 | the empty text exactly until the room is loaded |
| VoiceRoom.DurationReadsBack | home/ubuntu/mentor-app/client/shared/components/VoiceRoom.js:225-228 | for a non-negative elapsed time the text is the hours and h when at least an hour has passed, then the remaining minutes and m, and both numbers read back |
| VoiceRoom.DurationBeforeStart | home/ubuntu/mentor-app/client/shared/components/VoiceRoom.js:225-228 | a room whose start is ahead shows no hours and a non-positive minute count, JavaScript's remainder keeping the sign |
| VoiceRoom.VoiceRoomView.constructor | home/ubuntu/mentor-app/client/shared/components/VoiceRoom.js:6-14 | not loaded, no participants, unmuted, not connecting, no hand raised |
| VoiceRoom.VoiceRoomView.Load | home/ubuntu/mentor-app/client/shared/components/VoiceRoom.js:89-90 | the room's start time and participant list are set; nothing else changes |
| VoiceRoom.VoiceRoomView.Join | home/ubuntu/mentor-app/client/shared/components/VoiceRoom.js:118-144 | every entry of the user becomes active, no other entry changes, and connecting ends |
| VoiceRoom.VoiceRoomView.Leave | home/ubuntu/mentor-app/client/shared/components/VoiceRoom.js:147-172 | every entry of the user becomes inactive and the local mute flag is reset; the entries' own mute is left |
| VoiceRoom.VoiceRoomView.ToggleMute | home/ubuntu/mentor-app/client/shared/components/VoiceRoom.js:175-193 | the local flag flips and every entry of the user takes the new value, so they agree afterwards |
| VoiceRoom.VoiceRoomView.ToggleRaiseHand | home/ubuntu/mentor-app/client/shared/components/VoiceRoom.js:196-209 | the flag flips; lowered, the user is appended; raised, every occurrence is removed; the flag then holds exactly when the user is listed and other hands are kept |
| TodoPage.SetField | home/ubuntu/mentor-app/client/web/src/pages/TodoList.js:386 | each text input replaces exactly its own field of the form, and the tags input turns the field into typed text (also lines 398, 426, 444, 456, 470) |
| TodoPage.BuildTask | home/ubuntu/mentor-app/client/web/src/pages/TodoList.js:82-91 | a task is built exactly when the tags field holds typed text; it then carries every form field, the clock's id, not completed, no subtasks, and the tags split on commas and trimmed |
| TodoPage.UntypedTagsRejected | home/ubuntu/mentor-app/client/web/src/pages/TodoList.js:63-101 | a form whose tags input was never typed into, including the initial and the reset form, cannot be added |
| TodoPage.IntendedTask | home/ubuntu/mentor-app/client/web/src/pages/TodoList.js:82-91 | the corrected build: the same task whenever tags were typed, and no tags when they were not |
| TodoPage.ToggleTwice | home/ubuntu/mentor-app/client/web/src/pages/TodoList.js:122-126 | toggling the same task twice restores the list |
| TodoPage.ToggleSubtaskTwice | home/ubuntu/mentor-app/client/web/src/pages/TodoList.js:128-140 | toggling the same subtask twice restores the list |
| TodoPage.FilteredTodos | home/ubuntu/mentor-app/client/web/src/pages/TodoList.js:156-162 | exactly the tasks of the list that pass the search and the status filter, in list order |
| TodoPage.EmptySearchShowsAll | home/ubuntu/mentor-app/client/web/src/pages/TodoList.js:157-162 | with no search and a filter other than active, completed and high, every task shows in order |
| TodoPage.PrioritySorted | home/ubuntu/mentor-app/client/web/src/pages/TodoList.js:165-168 | the same tasks with High before Medium before Low, and tasks of one priority in their original order |
| TodoPage.CountComplement | home/ubuntu/mentor-app/client/web/src/pages/TodoList.js:144 | the tasks kept and the tasks removed add up to the list |
| TodoPage.TodoListPage.constructor | home/ubuntu/mentor-app/client/web/src/pages/TodoList.js:7-71 | the given tasks, the empty form, the all filter, no search, no modal and nothing selected |
| TodoPage.TodoListPage.InputChange | home/ubuntu/mentor-app/client/web/src/pages/TodoList.js:386 | the form takes SetField of the input; nothing else changes (also lines 398, 426, 444, 456, 470) |
| TodoPage.TodoListPage.PriorityChange | home/ubuntu/mentor-app/client/web/src/pages/TodoList.js:411 | only the form's priority changes |
| TodoPage.TodoListPage.AddTodo | home/ubuntu/mentor-app/client/web/src/pages/TodoList.js:82-120 | the add succeeds exactly when tags were typed; it then appends the built task, resets the form and closes the modal; otherwise nothing changes; the tasks listed before are always kept |
| TodoPage.TodoListPage.ToggleComplete | home/ubuntu/mentor-app/client/web/src/pages/TodoList.js:122-126 | every task with the id flips completed and the others are kept |
| TodoPage.TodoListPage.ToggleSubtask | home/ubuntu/mentor-app/client/web/src/pages/TodoList.js:128-140 | in the tasks with the id the subtasks with the subtask id flip, and nothing else changes |
| TodoPage.TodoListPage.DeleteTodo | home/ubuntu/mentor-app/client/web/src/pages/TodoList.js:142-149 | the tasks with the id are removed, the others kept in order, and the length drops by their number |
| TodoPage.TodoListPage.EditTodo | home/ubuntu/mentor-app/client/web/src/pages/TodoList.js:151-154 | the task is selected and the modal opened; the form is not filled from it |
| TodoPage.TodoListPage.CancelModal | home/ubuntu/mentor-app/client/web/src/pages/TodoList.js:480-483 | the modal closes and the selection is dropped |
| TodoPage.TodoListPage.SetFilter | home/ubuntu/mentor-app/client/web/src/pages/TodoList.js:228 | only the filter changes |
| TodoPage.TodoListPage.SetSearch | home/ubuntu/mentor-app/client/web/src/pages/TodoList.js:214 | only the search text changes |
| SocialFeedPage.FlipLike | home/ubuntu/mentor-app/client/web/src/pages/SocialFeed.js:91-95 | liked flips and the count moves down by one for a liked post and up by one otherwise; nothing else changes |
| SocialFeedPage.LikeTwice | home/ubuntu/mentor-app/client/web/src/pages/SocialFeed.js:88-99 | liking and unliking the same post restores the list |
| SocialFeedPage.UnlikeHasNoFloor | home/ubuntu/mentor-app/client/web/src/pages/SocialFeed.js:94 | unliking a liked post with no likes shows -1, as the page has no floor at zero |
| SocialFeedPage.SaveTwice | home/ubuntu/mentor-app/client/web/src/pages/SocialFeed.js:101-111 | saving the same post twice restores the list |
| SocialFeedPage.FilteredPosts | home/ubuntu/mentor-app/client/web/src/pages/SocialFeed.js:142-149 | exactly the posts of the list that pass the tab, the platform flag and the content-type flags, in order |
| SocialFeedPage.LinksAndTimeIgnored | home/ubuntu/mentor-app/client/web/src/pages/SocialFeed.js:14-20 | the links flag and the time range never change which posts show (also lines 142-149) |
| SocialFeedPage.SameFilter | home/ubuntu/mentor-app/client/web/src/pages/SocialFeed.js:142-149 | two tests that agree on every post keep the same posts |
| SocialFeedPage.PlatformOffHidesPosts | home/ubuntu/mentor-app/client/web/src/pages/SocialFeed.js:144 | a platform switched off shows none of its posts on any tab |
| SocialFeedPage.Tabs | home/ubuntu/mentor-app/client/web/src/pages/SocialFeed.js:252-255 | one tab per connected account, so a platform has a tab exactly when some account of it is connected |
| SocialFeedPage.SocialFeedView.constructor | home/ubuntu/mentor-app/client/web/src/pages/SocialFeed.js:4-21 | the all tab, every filter but Quora on, the given posts and accounts, no modal, no platform selected and the filter panel hidden (also lines 85-86) |
| SocialFeedPage.SocialFeedView.ToggleLike | home/ubuntu/mentor-app/client/web/src/pages/SocialFeed.js:88-99 | the posts with the id take FlipLike and the others are kept |
| SocialFeedPage.SocialFeedView.ToggleSave | home/ubuntu/mentor-app/client/web/src/pages/SocialFeed.js:101-111 | the posts with the id flip saved and nothing else changes |
| SocialFeedPage.SocialFeedView.Connect | home/ubuntu/mentor-app/client/web/src/pages/SocialFeed.js:113-116 | the modal opens for the platform and no account changes |
| SocialFeedPage.SocialFeedView.CloseConnectModal | home/ubuntu/mentor-app/client/web/src/pages/SocialFeed.js:456-465 | the modal closes and nothing else changes |
| SocialFeedPage.SocialFeedView.Disconnect | home/ubuntu/mentor-app/client/web/src/pages/SocialFeed.js:118-125 | the platform's accounts become disconnected with no username, the others are kept, and the platform loses its tab while every other tab stays |
| SocialFeedPage.SocialFeedView.SetActiveTab | home/ubuntu/mentor-app/client/web/src/pages/SocialFeed.js:243-255 | only the tab changes |
| SocialFeedPage.SocialFeedView.TogglePlatform | home/ubuntu/mentor-app/client/web/src/pages/SocialFeed.js:185-191 | that platform's flag flips and the other filters stay |
| SocialFeedPage.SocialFeedView.ToggleContentType | home/ubuntu/mentor-app/client/web/src/pages/SocialFeed.js:208-214 | that content type's flag flips and the other filters stay |
| SocialFeedPage.SocialFeedView.SetTimeRange | home/ubuntu/mentor-app/client/web/src/pages/SocialFeed.js:227 | only the time range changes |
| SocialFeedPage.SocialFeedView.ToggleFilters | home/ubuntu/mentor-app/client/web/src/pages/SocialFeed.js:163 | the filter panel flips between shown and hidden, and the tab, filters, posts and accounts are kept |
| PomodoroPage.Duration | home/ubuntu/mentor-app/client/web/src/pages/Pomodoro.js:9-13 | every kind of session has a positive length in seconds |
| PomodoroPage.Complete | home/ubuntu/mentor-app/client/web/src/pages/Pomodoro.js:34-44 | a finished pomodoro counts one more session, a finished break none, and the timer stops with the clock and kind kept |
| PomodoroPage.Settle | home/ubuntu/mentor-app/client/web/src/pages/Pomodoro.js:22-32 | re-running the effect on each change of its dependencies never changes the clock or the kind of session |
| PomodoroPage.SettleWithTimeLeft | home/ubuntu/mentor-app/client/web/src/pages/Pomodoro.js:24-27 | while time is left the effect only arms the interval, so the state is unchanged |
| PomodoroPage.FinishCountsTwice | home/ubuntu/mentor-app/client/web/src/pages/Pomodoro.js:22-44 | a running timer reaching zero ends stopped at zero with two sessions counted for a pomodoro, because the stop re-runs the effect |
| PomodoroPage.ChangeAtZero | home/ubuntu/mentor-app/client/web/src/pages/Pomodoro.js:22-54 | at zero a stop completes once and a start completes twice more |
| PomodoroPage.TickIntended | home/ubuntu/mentor-app/client/web/src/pages/Pomodoro.js:22-44 | the intended tick: one second off, and on reaching zero the timer stops with exactly one session counted for a pomodoro |
| PomodoroPage.IntendedAgreesBeforeFinish | home/ubuntu/mentor-app/client/web/src/pages/Pomodoro.js:22-32 | before the last second the page's tick and the intended tick agree |
| PomodoroPage.Toggled | home/ubuntu/mentor-app/client/web/src/pages/Pomodoro.js:169-199 | the named setting flips and the other settings stay |
| PomodoroPage.ToggleTwice | home/ubuntu/mentor-app/client/web/src/pages/Pomodoro.js:169-199 | toggling the same setting twice restores the settings |
| PomodoroPage.PomodoroView.constructor | home/ubuntu/mentor-app/client/web/src/pages/Pomodoro.js:4-20 | a stopped 25-minute pomodoro, no sessions, notifications on and the rest off |
| PomodoroPage.PomodoroView.Commit | home/ubuntu/mentor-app/client/web/src/pages/Pomodoro.js:22-32 | the state becomes Settle of the old state, keeping the clock within the current kind's length |
| PomodoroPage.PomodoroView.Tick | home/ubuntu/mentor-app/client/web/src/pages/Pomodoro.js:25-27 | one second off then the effect: with more than one second left only the clock moves; at the last second the timer stops at zero with two sessions counted for a pomodoro; a stopped or finished timer is unchanged |
| PomodoroPage.PomodoroView.StartStop | home/ubuntu/mentor-app/client/web/src/pages/Pomodoro.js:52-54 | the running flag flips and, with time left, nothing else changes |
| PomodoroPage.PomodoroView.Reset | home/ubuntu/mentor-app/client/web/src/pages/Pomodoro.js:56-59 | the clock goes back to the current kind's full length, stopped, with the sessions kept |
| PomodoroPage.PomodoroView.SwitchTimerType | home/ubuntu/mentor-app/client/web/src/pages/Pomodoro.js:61-65 | the new kind at its full length, stopped, with the sessions kept |
| PomodoroPage.PomodoroView.ToggleSetting | home/ubuntu/mentor-app/client/web/src/pages/Pomodoro.js:169-199 | the settings become Toggled and the timer is untouched |
| PomodoroPage.PomodoroView.Display | home/ubuntu/mentor-app/client/web/src/pages/Pomodoro.js:46-50 | five characters MM:SS that read back as the minutes and seconds left (also line 113) |
| ProjectsPage.FilteredProjects | home/ubuntu/mentor-app/client/web/src/pages/Projects.js:59-64 | the 'completed' and 'in-progress' filters keep exactly the projects with that status; any other filter keeps every project, in order |
| ProjectsPage.StatusCount | home/ubuntu/mentor-app/client/web/src/pages/Projects.js:97-107 | the counter is at most the total and is zero exactly when no project has that status |
| ProjectsPage.TabMatchesCounter | home/ubuntu/mentor-app/client/web/src/pages/Projects.js:59-107 | each status tab lists as many projects as its counter shows |
| ProjectsPage.CountersWithinTotal | home/ubuntu/mentor-app/client/web/src/pages/Projects.js:93-107 | the in-progress and completed counters together never exceed the total |
| ProjectsPage.AverageProgress | home/ubuntu/mentor-app/client/web/src/pages/Projects.js:113 | no average (NaN) exactly when there are no projects; otherwise the mean rounded to nearest with halves up |
| ProjectsPage.SumBounds | home/ubuntu/mentor-app/client/web/src/pages/Projects.js:113 | with every progress a percentage the sum lies between 0 and 100 per project |
| ProjectsPage.AverageIsPercentage | home/ubuntu/mentor-app/client/web/src/pages/Projects.js:113 | with every progress a percentage, the average is one too |
| ProjectsPage.SameProgressAverage | home/ubuntu/mentor-app/client/web/src/pages/Projects.js:113 | when every project shows the same progress, that is the average |
| ProjectsPage.ProjectsView.constructor | home/ubuntu/mentor-app/client/web/src/pages/Projects.js:4-57 | the given projects, the all filter, the modal closed and an empty draft |
| ProjectsPage.ProjectsView.SetFilter | home/ubuntu/mentor-app/client/web/src/pages/Projects.js:123-143 | only the filter changes |
| ProjectsPage.ProjectsView.OpenNewProject | home/ubuntu/mentor-app/client/web/src/pages/Projects.js:81 | only the modal opens |
| ProjectsPage.ProjectsView.EditDraft | home/ubuntu/mentor-app/client/web/src/pages/Projects.js:250-272 | only the draft changes |
| ProjectsPage.ProjectsView.AddProject | home/ubuntu/mentor-app/client/web/src/pages/Projects.js:66-70 | the modal closes, the draft and filter are kept, and no project is added (also line 280) |
| SettingsPage.WithSection | home/ubuntu/mentor-app/client/web/src/pages/Settings.js:215-217 | the named section is replaced and the profile and the other sections are kept (also lines 249-251, 289-291) |
| SettingsPage.Not | home/ubuntu/mentor-app/client/web/src/pages/Settings.js:217 | JavaScript's negation always gives a boolean, true exactly for a falsy value (also lines 251, 291) |
| SettingsPage.NotTwice | home/ubuntu/mentor-app/client/web/src/pages/Settings.js:217 | negating twice gives the value back exactly when it is a boolean; a text entry becomes true (also lines 251, 291) |
| SettingsPage.Toggled | home/ubuntu/mentor-app/client/web/src/pages/Settings.js:209-218 | the key is set in the draft's section to the negation of the committed value there; every other key, section and the profile keep the draft's values (also lines 238-252, 271-292) |
| SettingsPage.ToggleIgnoresDraft | home/ubuntu/mentor-app/client/web/src/pages/Settings.js:209-218 | what a toggle writes depends on the committed settings only, never on the draft (also lines 238-252, 271-292) |
| SettingsPage.ToggleTwiceKeepsNegation | home/ubuntu/mentor-app/client/web/src/pages/Settings.js:209-218 | toggling a key twice before saving equals toggling it once (also lines 238-252, 271-292) |
| SettingsPage.SecondClickDoesNotUndo | home/ubuntu/mentor-app/client/web/src/pages/Settings.js:30-35 | from the initial settings two clicks on GitHub leave it disconnected in the draft although it started connected (also lines 271-292) |
| SettingsPage.IntendedToggle | home/ubuntu/mentor-app/client/web/src/pages/Settings.js:209-218 | the intended toggle negates the draft's own value at the key and keeps everything else (also lines 238-252, 271-292) |
| SettingsPage.IntendedToggleTwice | home/ubuntu/mentor-app/client/web/src/pages/Settings.js:209-218 | two intended toggles of a boolean entry restore the draft (also lines 238-252, 271-292) |
| SettingsPage.ToggleAgreesWhenClean | home/ubuntu/mentor-app/client/web/src/pages/Settings.js:209-218 | on a draft equal to the committed settings, the page's toggle and the intended one agree (also lines 238-252, 271-292) |
| SettingsPage.EditedProfile | home/ubuntu/mentor-app/client/web/src/pages/Settings.js:163-196 | exactly the edited field takes the typed text; the other profile fields are kept |
| SettingsPage.EditTwice | home/ubuntu/mentor-app/client/web/src/pages/Settings.js:163-196 | the latest text typed into an input wins |
| SettingsPage.SettingsView.constructor | home/ubuntu/mentor-app/client/web/src/pages/Settings.js:7-40 | the initial settings, a draft equal to them, the profile tab and not editing |
| SettingsPage.SettingsView.SetActiveTab | home/ubuntu/mentor-app/client/web/src/pages/Settings.js:125-128 | only the tab changes |
| SettingsPage.SettingsView.Save | home/ubuntu/mentor-app/client/web/src/pages/Settings.js:42-45 | the draft becomes the committed settings, so the draft is clean, and editing ends |
| SettingsPage.SettingsView.Cancel | home/ubuntu/mentor-app/client/web/src/pages/Settings.js:47-50 | the draft is reset to the unchanged committed settings and editing ends |
| SettingsPage.SettingsView.EditProfile | home/ubuntu/mentor-app/client/web/src/pages/Settings.js:163-196 | the draft's profile takes EditedProfile and the committed settings do not change |
| SettingsPage.SettingsView.Toggle | home/ubuntu/mentor-app/client/web/src/pages/Settings.js:209-218 | the draft becomes Toggled against the committed settings, which do not change (also lines 238-252, 271-292) |
| PomodoroScreen.ModeDuration | home/ubuntu/mentor-app/mentor/screens/PomodoroScreen.tsx:4-5 | a work period lasts 25 minutes and a break 5, both under 100 minutes |
| PomodoroScreen.Step | home/ubuntu/mentor-app/mentor/screens/PomodoroScreen.tsx:20-30 | while running, one second goes unless one second is left, when the timer stops in the other mode at that mode's full length; a stopped timer is unchanged |
| PomodoroScreen.CountsDown | home/ubuntu/mentor-app/mentor/screens/PomodoroScreen.tsx:21-30 | a running timer loses exactly n seconds in n firings while more than n seconds are left |
| PomodoroScreen.PeriodEnds | home/ubuntu/mentor-app/mentor/screens/PomodoroScreen.tsx:21-30 | from s seconds left, s firings end the period stopped in the other mode at its full length |
| PomodoroScreen.StepsSplit | home/ubuntu/mentor-app/mentor/screens/PomodoroScreen.tsx:21-31 | m + n firings are m firings followed by n |
| PomodoroScreen.TwoPeriodsReturn | home/ubuntu/mentor-app/mentor/screens/PomodoroScreen.tsx:21-40 | finishing a period, starting again and finishing the next returns to the starting mode at its full length, stopped |
| PomodoroScreen.PomodoroScreenView.constructor | home/ubuntu/mentor-app/mentor/screens/PomodoroScreen.tsx:14-16 | a stopped work period at 25 minutes |
| PomodoroScreen.PomodoroScreenView.Tick | home/ubuntu/mentor-app/mentor/screens/PomodoroScreen.tsx:19-38 | the state becomes Step of the old state and the clock stays between one second and the mode's full length |
| PomodoroScreen.PomodoroScreenView.Start | home/ubuntu/mentor-app/mentor/screens/PomodoroScreen.tsx:40-53 | only the running flag is set |
| PomodoroScreen.PomodoroScreenView.Pause | home/ubuntu/mentor-app/mentor/screens/PomodoroScreen.tsx:41-53 | only the running flag is cleared |
| PomodoroScreen.PomodoroScreenView.Reset | home/ubuntu/mentor-app/mentor/screens/PomodoroScreen.tsx:42-45 | stopped at the current mode's full length, the mode kept |
| PomodoroScreen.PomodoroScreenView.Display | home/ubuntu/mentor-app/mentor/screens/PomodoroScreen.tsx:7-50 | five characters MM:SS that read back as the minutes and seconds left |
| TodoListScreen.ToggleTwice | home/ubuntu/mentor-app/mentor/screens/TodoListScreen.tsx:23-29 | toggling the same id twice restores the list |
| TodoListScreen.RemoveUndoesAdd | home/ubuntu/mentor-app/mentor/screens/TodoListScreen.tsx:14-33 | removing a todo just added under a fresh id gives back the list from before the add |
| TodoListScreen.TodoListView.constructor | home/ubuntu/mentor-app/mentor/screens/TodoListScreen.tsx:11-12 | no todos and an empty input |
| TodoListScreen.TodoListView.SetInput | home/ubuntu/mentor-app/mentor/screens/TodoListScreen.tsx:43 | only the input changes |
| TodoListScreen.TodoListView.AddTodo | home/ubuntu/mentor-app/mentor/screens/TodoListScreen.tsx:14-21 | a blank input changes nothing; otherwise the untrimmed text is appended, not completed, and the input is cleared |
| TodoListScreen.TodoListView.ToggleTodo | home/ubuntu/mentor-app/mentor/screens/TodoListScreen.tsx:23-29 | exactly the todos with the id flip their completed flag |
| TodoListScreen.TodoListView.RemoveTodo | home/ubuntu/mentor-app/mentor/screens/TodoListScreen.tsx:31-33 | no todo with the id remains, every other todo is kept in order, and the length drops by the number removed |
| ProjectScreen.RemoveUndoesAdd | home/ubuntu/mentor-app/mentor/screens/ProjectScreen.tsx:15-27 | removing a project just added under a fresh id gives back the list from before the add |
| ProjectScreen.ProjectScreenView.constructor | home/ubuntu/mentor-app/mentor/screens/ProjectScreen.tsx:11-13 | no projects and both inputs empty |
| ProjectScreen.ProjectScreenView.SetTitle | home/ubuntu/mentor-app/mentor/screens/ProjectScreen.tsx:37 | only the title input changes |
| ProjectScreen.ProjectScreenView.SetDescription | home/ubuntu/mentor-app/mentor/screens/ProjectScreen.tsx:43 | only the description input changes |
| ProjectScreen.ProjectScreenView.AddProject | home/ubuntu/mentor-app/mentor/screens/ProjectScreen.tsx:15-23 | a blank title changes nothing; otherwise the project with both texts as typed is appended and both inputs are cleared |
| ProjectScreen.ProjectScreenView.RemoveProject | home/ubuntu/mentor-app/mentor/screens/ProjectScreen.tsx:25-27 | no project with the id remains and every other project is kept in order |
| ChatScreen.ChatScreenView.constructor | home/ubuntu/mentor-app/mentor/screens/ChatScreen.tsx:10-18 | the three canned messages and an empty input |
| ChatScreen.ChatScreenView.SetInput | home/ubuntu/mentor-app/mentor/screens/ChatScreen.tsx:57 | only the input changes |
| ChatScreen.ChatScreenView.SendMessage | home/ubuntu/mentor-app/mentor/screens/ChatScreen.tsx:21-27 | a blank input sends nothing; otherwise the typed text is appended as the user's message and the input is cleared; earlier messages are never changed |
| MentorshipScreen.ToggleFollowTwice | home/ubuntu/mentor-app/mentor/screens/MentorshipScreen.tsx:21-27 | toggling the same mentor twice restores the list |
| MentorshipScreen.FilteredMentors | home/ubuntu/mentor-app/mentor/screens/MentorshipScreen.tsx:29-32 | exactly the mentors whose name or expertise contains the search text ignoring case |
| MentorshipScreen.EmptySearchShowsAll | home/ubuntu/mentor-app/mentor/screens/MentorshipScreen.tsx:19-32 | an empty search shows every mentor in order |
| MentorshipScreen.SearchIgnoresCase | home/ubuntu/mentor-app/mentor/screens/MentorshipScreen.tsx:29-32 | a search and its lower-case form show the same mentors |
| MentorshipScreen.MentorshipView.constructor | home/ubuntu/mentor-app/mentor/screens/MentorshipScreen.tsx:11-19 | the canned mentors, none followed, and an empty search |
| MentorshipScreen.MentorshipView.SetSearch | home/ubuntu/mentor-app/mentor/screens/MentorshipScreen.tsx:41 | only the search changes |
| MentorshipScreen.MentorshipView.ToggleFollow | home/ubuntu/mentor-app/mentor/screens/MentorshipScreen.tsx:21-27 | exactly the mentors with the id flip their follow flag and the search is kept |
| MentorshipScreen.MentorshipView.Visible | home/ubuntu/mentor-app/mentor/screens/MentorshipScreen.tsx:29-44 | with no search every mentor shows; otherwise only mentors that match |

## Left out

- HTTP transport, Express routing, JWT authentication middleware and request validation middleware: a handler's caller is given as an id.
- MongoDB itself: queries are modelled on maps and sequences, each handler runs atomically, and concurrent requests are not modelled.
- `populate` and field selection in replies: bodies carry ids rather than populated documents.
- A `page` or `limit` query value that is not a number: `parseInt` then gives NaN, and MongoDB's handling of a NaN skip or limit is not modelled; the handlers take integers.
- Lists.SortByStable: MongoDB does not promise the order of messages that share a creation time; the model fixes their stored order.
- Floating point: progress percentages and averages are computed exactly with `Math.round`'s halves-up rule, without binary rounding; `parseFloat` of an hourly rate is not modelled.
- Dates: `new Date()` is a timestamp parameter; date parsing and comparison, the `dueDate` sort and the `localeCompare` category sort on the web to-do page are not modelled, and voice-room times are whole minutes.
- `toLowerCase` is modelled for ASCII letters only; Unicode case mapping is left out.
- Timers, intervals, `setTimeout` delays, browser notifications, sounds, toasts and scrolling: only their effect on state is modelled, and each timer firing is an explicit `Tick`.
- The order of React's queued state updates inside an updater, and the side effects the mobile Pomodoro screen performs inside a state updater, beyond the final state they produce.
- Mock data, simulated fetches and AI suggestion stubs, beyond the canned initial states that the constructors load.
- The web settings page's theme tab, which belongs to the theme context.
- MessagingSystem `createNewChat`: the room creation and the room-list update that follow its form checks are not part of this model; only the checks and the room values it builds are.
- Screens and components outside the modelled ones, such as the mobile settings, authentication, home and social feed screens.
- MessagingSystem.Messaging.SendMessage requires an active room: with none, `sendMessage` reads the id of `null` at line 423 and throws; the markup that decides when the message form is shown is not part of this model.
- Gamification.UpdateAchievementProgress takes the reported progress as an optional integer, so three request bodies are not modelled: a JSON `null`, which passes the `progress === undefined` test and is stored as `Math.min(null, maxProgress)`, that is 0; a numeric string, which `Math.min` converts to a number; and a fraction, which is stored as given.
- JsText.ParseInt models `parseInt` with radix 10, as `UserProfile.js` calls it; the radix-less calls in the controllers would read a `0x` prefix as hexadecimal, but the handlers take integers and do not call it.
- The button that switches the profile view to editing: the markup that sets `isEditing` to true is not part of this model; the view starts not editing and a submit ends editing.
- UserProfileView.ProfileView.Submit, UserProfileView.ProfileView.FollowUser and UserProfileView.ProfileView.UnfollowUser require a loaded profile, because the component renders only a loading, error or not-found message until the profile is loaded (`client/shared/components/UserProfile.js` lines 274-286).
- UserProfileView.ProfileView.UpdateSkill requires an existing row index, because each skill row passes its own index.
- SocialFeedPage.SocialFeedView.TogglePlatform and SocialFeedPage.SocialFeedView.ToggleContentType require an existing key, because the checkboxes are drawn from the filter's own keys.
- ProjectSection.Section.ToggleMilestoneComplete and ProjectSection.Section.DeleteMilestone with no active project throw in the source (they read the milestones of `null`); the model leaves the state unchanged instead.

## Findings

| source | as written | input that shows it | evidently intended | confidence | as-written member | corrected member |
|---|---|---|---|---|---|---|
| home/ubuntu/mentor-app/server/controllers/gamification.js:287 | the completion reply reads `user` and `currentLevel` outside the block that declares them, so it throws after every save and the catch block answers 500 | a progress update that reaches `maxProgress` for the first time | a 200 reply with the new progress, `xpAwarded` equal to the reward, and `levelUp` true exactly when the level rose | not executed | Gamification.RespondAsWritten | Gamification.Respond |
| home/ubuntu/mentor-app/client/web/src/pages/Pomodoro.js:22-44 | the effect depends on `isRunning` and `timeLeft`; completing at zero stops the timer, which re-runs the effect while `timeLeft` is still 0, and that run completes again | a running pomodoro ticking from 1 to 0 | one session counted per finished pomodoro | not executed | PomodoroPage.FinishCountsTwice | PomodoroPage.TickIntended |
| home/ubuntu/mentor-app/client/web/src/pages/TodoList.js:63, 90, 101 | `tags` starts as an array, and `split` on an array throws, so the catch shows an error and nothing is added | submitting the new-task form without typing into the tags field | the task is added, with no tags when none were typed | not executed | TodoPage.UntypedTagsRejected | TodoPage.IntendedTask |
| home/ubuntu/mentor-app/client/web/src/pages/Settings.js:209-218, 238-252, 271-292 | each toggle writes the negation of the committed value, not of the draft's value, so a second click before saving does not undo the first | clicking GitHub twice on the integrations tab from the initial settings | each click flips the draft's current value | not executed | SettingsPage.SecondClickDoesNotUndo | SettingsPage.IntendedToggle |
