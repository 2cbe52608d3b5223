/**
 * The chat-room controller: reading a room, creating group and voice
 * rooms, joining and leaving a voice call, and adding participants. The
 * rooms, users and messages live in one in-memory database object; the
 * caller is given by id, and `now` stands for `Date.now()`.
 */
module ChatRooms {
  import opened Shared
  import opened ChatModel
  import Lists

  // The error messages the handlers reply with.
  const RoomNotFound := "Chat room not found"
  const NotRoomMember := "Not authorized to access this chat room"
  const RoomNameRequired := "Chat room name is required"
  const ParticipantRequired := "At least one participant is required"
  const UnknownParticipant := "One or more participants do not exist"
  const VoiceRoomNameRequired := "Voice room name is required"
  const NotVoiceRoom := "This is not a voice room"
  const VoiceRoomInactive := "This voice room is not active"
  const AlreadyInVoiceRoom := "You are already in this voice room"
  const NotInVoiceRoom := "You are not in this voice room"
  const VoiceRoomNotFound := "Voice room not found"
  const ParticipantsRequired := "Participants are required"
  const AdminsOnly := "Only admins can add participants"

  /** The chat collections: user names by id, rooms and messages in insertion order. */
  class ChatDb {
    var users: map<Id, string>
    var rooms: seq<ChatRoom>
    var messages: seq<Message>

    ghost predicate Valid()
      reads this
    {
      forall i :: 0 <= i < |rooms| ==> RoomOk(rooms[i])
    }

    constructor (users: map<Id, string>)
      ensures Valid() && this.users == users && rooms == [] && messages == []
    {
      this.users := users;
      rooms, messages := [], [];
    }

    /** Saving a new room that has the shape every handler keeps. */
    method AddRoom(room: ChatRoom)
      requires Valid() && RoomOk(room)
      modifies this
      ensures Valid() && rooms == old(rooms) + [room]
      ensures users == old(users) && messages == old(messages)
    {
      rooms := rooms + [room];
    }
  }

  /**
   * The shape every handler keeps: users in the call are distinct
   * participants, the call is live exactly while someone is in it, only a
   * voice room has a call, and a group or voice room lists each user once.
   */
  predicate RoomOk(room: ChatRoom) {
    Lists.Distinct(room.activeParticipants)
    && (forall i :: 0 <= i < |room.activeParticipants| ==> room.activeParticipants[i] in Users(room.participants))
    && (room.isVoiceActive <==> room.activeParticipants != [])
    && (room.roomType != Voice ==> !room.isVoiceActive)
    && (room.roomType != Direct ==> Lists.Distinct(Users(room.participants)))
  }

  /** `ChatRoom.findById(id)`: the index of the room, or -1. */
  function FindRoom(rooms: seq<ChatRoom>, id: Id): (k: int)
    ensures -1 <= k < |rooms|
    ensures k >= 0 ==> rooms[k].id == id
    ensures k == -1 <==> forall i :: 0 <= i < |rooms| ==> rooms[i].id != id
  {
    Lists.FirstIndex(rooms, (r: ChatRoom) => r.id == id)
  }

  /** Lines 53-62: only a participant reads a room. */
  function GetChatRoom(rooms: seq<ChatRoom>, caller: Id, roomId: Id): (reply: Reply<ChatRoom>)
    ensures reply.Success? <==> FindRoom(rooms, roomId) >= 0 && caller in Users(rooms[FindRoom(rooms, roomId)].participants)
    ensures reply.Success? ==> reply.status == 200 && reply.body.id == roomId && caller in Users(reply.body.participants)
    ensures FindRoom(rooms, roomId) < 0 ==> reply == Failure(404, RoomNotFound)
    ensures FindRoom(rooms, roomId) >= 0 && reply.Failure? ==> reply == Failure(403, NotRoomMember)
  {
    var k := FindRoom(rooms, roomId);
    if k < 0 then Failure(404, RoomNotFound)
    else if caller !in Users(rooms[k].participants) then Failure(403, NotRoomMember)
    else Success(200, rooms[k])
  }

  /** `User.find({ _id: { $in: ids } })`: the distinct existing users among the ids. */
  function Found(ids: seq<Id>, users: map<Id, string>): set<Id> {
    set x | x in ids && x in users
  }

  /**
   * The handlers' existence check `users.length === ids.length` passes
   * exactly when every id names a user and no id is repeated.
   */
  lemma {:induction false} FoundAllIff(ids: seq<Id>, users: map<Id, string>)
    ensures |Found(ids, users)| <= |ids|
    ensures |Found(ids, users)| == |ids| <==> (forall i :: 0 <= i < |ids| ==> ids[i] in users) && Lists.Distinct(ids)
  {
    if ids != [] {
      var init, x := ids[..|ids| - 1], ids[|ids| - 1];
      FoundAllIff(init, users);
      assert ids == init + [x];
      if x in users && x !in init {
        FoundAllIffFresh(init, x, users);
      } else {
        FoundAllIffRepeat(init, x, users);
      }
    }
  }

  /** The step of `FoundAllIff` for a last id that is a user not listed before it. */
  lemma FoundAllIffFresh(init: seq<Id>, x: Id, users: map<Id, string>)
    requires |Found(init, users)| <= |init|
    requires |Found(init, users)| == |init| <==> (forall i :: 0 <= i < |init| ==> init[i] in users) && Lists.Distinct(init)
    requires x in users && x !in init
    ensures var ids := init + [x];
      |Found(ids, users)| <= |ids| &&
      (|Found(ids, users)| == |ids| <==> (forall i :: 0 <= i < |ids| ==> ids[i] in users) && Lists.Distinct(ids))
  {
    var ids := init + [x];
    Lists.DistinctSnoc(init, x);
    FoundSnoc(init, x, users);
    assert x !in Found(init, users);
    assert |Found(ids, users)| == |Found(init, users)| + 1;
    assert ids[|init|] == x;
    assert forall i :: 0 <= i < |init| ==> ids[i] == init[i];
  }

  /** The step of `FoundAllIff` for a last id that is no user or is listed before it: the check fails. */
  lemma FoundAllIffRepeat(init: seq<Id>, x: Id, users: map<Id, string>)
    requires |Found(init, users)| <= |init|
    requires !(x in users && x !in init)
    ensures var ids := init + [x];
      |Found(ids, users)| < |ids| && !((forall i :: 0 <= i < |ids| ==> ids[i] in users) && Lists.Distinct(ids))
  {
    var ids := init + [x];
    Lists.DistinctSnoc(init, x);
    FoundSnoc(init, x, users);
    assert Found(ids, users) == Found(init, users) by {
      if x in users {
        var i :| 0 <= i < |init| && init[i] == x;
      }
    }
    assert ids[|init|] == x;
  }

  lemma FoundSnoc(init: seq<Id>, x: Id, users: map<Id, string>)
    ensures Found(init + [x], users) == Found(init, users) + (if x in users then {x} else {})
  {
  }

  /** Line 110: the caller joins the list when it is not in it yet. */
  function WithCaller(ids: seq<Id>, caller: Id): (r: seq<Id>)
    ensures caller in r
    ensures caller in ids ==> r == ids
    ensures caller !in ids ==> r == ids + [caller]
  {
    if caller in ids then ids else ids + [caller]
  }

  /** Lines 125-137: a group room in which the creator is the only admin and everyone else a member. */
  function GroupRoom(id: Id, name: string, description: Option<string>, ids: seq<Id>, caller: Id, now: int):
    (room: ChatRoom)
    requires caller in ids
    ensures room.id == id && room.roomType == Group && room.description == description
    ensures Users(room.participants) == ids && caller in Users(room.participants)
    ensures forall i :: 0 <= i < |ids| ==> (room.participants[i].role == Admin <==> ids[i] == caller)
    ensures forall i :: 0 <= i < |ids| ==> room.participants[i].role != Moderator
    ensures Lists.Distinct(ids) ==> RoomOk(room)
  {
    var ps := seq(|ids|, i requires 0 <= i < |ids| =>
      Participant(ids[i], if ids[i] == caller then Admin else Member, now, now));
    assert Users(ps) == ids;
    NewRoom(id, name, Group, ps, caller, now).(description := description)
  }

  /**
   * `createGroupChatRoom`: a name and a non-empty participant list are
   * required; the caller is added when absent; every listed user must exist
   * (and, by the count comparison, be listed once).
   */
  method CreateGroupChatRoom(db: ChatDb, caller: Id, name: Option<string>, description: Option<string>,
                             participants: Option<seq<Id>>, newId: Id, now: int) returns (reply: Reply<ChatRoom>)
    requires db.Valid() && FindRoom(db.rooms, newId) < 0
    modifies db
    ensures db.Valid()
    ensures db.users == old(db.users) && db.messages == old(db.messages)
    ensures !Present(name) ==>
      reply == Failure(400, RoomNameRequired) && unchanged(db)
    ensures Present(name) && (participants.None? || participants.value == []) ==>
      reply == Failure(400, ParticipantRequired) && unchanged(db)
    ensures Present(name) && participants.Some? && participants.value != [] ==>
      var ids := WithCaller(participants.value, caller);
      if |Found(ids, old(db.users))| != |ids| then
        reply == Failure(400, UnknownParticipant) && unchanged(db)
      else
        var room := GroupRoom(newId, name.value, description, ids, caller, now);
        reply == Success(201, room) && db.rooms == old(db.rooms) + [room]
  {
    if !Present(name) {
      return Failure(400, RoomNameRequired);
    }
    if participants.None? || participants.value == [] {
      return Failure(400, ParticipantRequired);
    }
    var ids := WithCaller(participants.value, caller);
    if |Found(ids, db.users)| != |ids| {
      return Failure(400, UnknownParticipant);
    }
    FoundAllIff(ids, db.users);
    var room := GroupRoom(newId, name.value, description, ids, caller, now);
    db.AddRoom(room);
    reply := Success(201, room);
  }

  /**
   * Lines 176-211: the creator first as admin, then the other listed users
   * as members; the call is live with the creator in it.
   */
  function VoiceRoom(id: Id, name: string, topic: Option<string>, scheduledFor: int, duration: Option<int>,
                     others: seq<Id>, caller: Id, now: int): (room: ChatRoom)
    ensures room.id == id && room.roomType == Voice && room.isVoiceActive && room.activeParticipants == [caller]
    ensures |room.participants| == |others| + 1
    ensures room.participants[0].user == caller && room.participants[0].role == Admin
    ensures Users(room.participants) == [caller] + others
    ensures forall i :: 1 <= i < |room.participants| ==> room.participants[i].role == Member
    ensures room.scheduledFor == Some(scheduledFor)
    ensures Lists.Distinct(others) && caller !in others ==> RoomOk(room)
  {
    var ps := [Participant(caller, Admin, now, now)] + seq(|others|, i requires 0 <= i < |others| => NewMember(others[i], now));
    assert Users(ps) == [caller] + others;
    NewRoom(id, name, Voice, ps, caller, now)
      .(isVoiceActive := true, activeParticipants := [caller], topic := topic,
        scheduledFor := Some(scheduledFor), duration := duration)
  }

  /**
   * `createVoiceRoom`: a name is required; a non-empty participant list
   * must name existing users, each once. The schedule defaults to now.
   */
  method CreateVoiceRoom(db: ChatDb, caller: Id, name: Option<string>, topic: Option<string>,
                         scheduledFor: Option<int>, duration: Option<int>, participants: Option<seq<Id>>,
                         newId: Id, now: int) returns (reply: Reply<ChatRoom>)
    requires db.Valid() && FindRoom(db.rooms, newId) < 0
    modifies db
    ensures db.Valid()
    ensures db.users == old(db.users) && db.messages == old(db.messages)
    ensures !Present(name) ==>
      reply == Failure(400, VoiceRoomNameRequired) && unchanged(db)
    ensures (Present(name) && participants.Some? && participants.value != []
             && |Found(participants.value, old(db.users))| != |participants.value|) ==>
      reply == Failure(400, UnknownParticipant) && unchanged(db)
    ensures (Present(name) && (participants.None? || participants.value == []
             || |Found(participants.value, old(db.users))| == |participants.value|)) ==>
      var others := if participants.None? then [] else Lists.Without(participants.value, caller);
      var at := if scheduledFor.None? || scheduledFor.value == 0 then now else scheduledFor.value;
      var room := VoiceRoom(newId, name.value, topic, at, duration, others, caller, now);
      reply == Success(201, room) && db.rooms == old(db.rooms) + [room]
  {
    if !Present(name) {
      return Failure(400, VoiceRoomNameRequired);
    }
    var others: seq<Id> := [];
    if participants.Some? && participants.value != [] {
      if |Found(participants.value, db.users)| != |participants.value| {
        return Failure(400, UnknownParticipant);
      }
      FoundAllIff(participants.value, db.users);
      others := Lists.Without(participants.value, caller);
    }
    var at := if scheduledFor.None? || scheduledFor.value == 0 then now else scheduledFor.value;
    var room := VoiceRoom(newId, name.value, topic, at, duration, others, caller, now);
    db.AddRoom(room);
    reply := Success(201, room);
  }

  /**
   * Lines 249-290, once the room is loaded: refused for a room that is not a
   * voice room, whose call has ended, or that the caller is already in;
   * otherwise a newcomer becomes a member and the caller enters the call.
   */
  function Join(room: ChatRoom, caller: Id, now: int): (reply: Reply<ChatRoom>)
    ensures room.roomType != Voice ==> reply == Failure(400, NotVoiceRoom)
    ensures room.roomType == Voice && !room.isVoiceActive ==> reply == Failure(400, VoiceRoomInactive)
    ensures room.roomType == Voice && room.isVoiceActive && caller in room.activeParticipants ==>
      reply == Failure(400, AlreadyInVoiceRoom)
    ensures reply.Success? ==>
      reply.status == 200
      && reply.body.activeParticipants == room.activeParticipants + [caller]
      && reply.body.participants ==
           (if caller in Users(room.participants) then room.participants else room.participants + [NewMember(caller, now)])
      && reply.body.isVoiceActive && reply.body.lastActivity == now
      && reply.body == room.(participants := reply.body.participants,
                             activeParticipants := reply.body.activeParticipants, lastActivity := now, updatedAt := now)
    ensures RoomOk(room) && reply.Success? ==> RoomOk(reply.body)
  {
    if room.roomType != Voice then Failure(400, NotVoiceRoom)
    else if !room.isVoiceActive then Failure(400, VoiceRoomInactive)
    else if caller in room.activeParticipants then Failure(400, AlreadyInVoiceRoom)
    else
      var ps := if caller in Users(room.participants) then room.participants
                else room.participants + [NewMember(caller, now)];
      assert Users(room.participants) <= Users(ps);
      assert caller !in Users(room.participants) ==> Users(ps) == Users(room.participants) + [caller];
      Success(200, room.(participants := ps, activeParticipants := room.activeParticipants + [caller],
                         lastActivity := now, updatedAt := now))
  }

  /**
   * Lines 335-361, once the room is loaded: refused for a room that is not a
   * voice room or that the caller is not in; otherwise the caller leaves the
   * call, and the call ends when nobody is left.
   */
  function Leave(room: ChatRoom, caller: Id, now: int): (reply: Reply<ChatRoom>)
    ensures room.roomType != Voice ==> reply == Failure(400, NotVoiceRoom)
    ensures room.roomType == Voice && caller !in room.activeParticipants ==>
      reply == Failure(400, NotInVoiceRoom)
    ensures reply.Success? ==>
      reply.status == 200
      && caller !in reply.body.activeParticipants
      && (forall x :: x in reply.body.activeParticipants <==> x in room.activeParticipants && x != caller)
      && (reply.body.isVoiceActive <==> room.isVoiceActive && reply.body.activeParticipants != [])
      && reply.body == room.(activeParticipants := reply.body.activeParticipants,
                             isVoiceActive := reply.body.isVoiceActive, lastActivity := now, updatedAt := now)
    ensures RoomOk(room) && reply.Success? ==> RoomOk(reply.body)
  {
    if room.roomType != Voice then Failure(400, NotVoiceRoom)
    else if caller !in room.activeParticipants then Failure(400, NotInVoiceRoom)
    else
      var active := Lists.Without(room.activeParticipants, caller);
      forall x { Lists.WithoutMembers(room.activeParticipants, caller, x); }
      assert forall i :: 0 <= i < |active| ==> active[i] in room.activeParticipants;
      Success(200, room.(activeParticipants := active,
                         isVoiceActive := if active == [] then false else room.isVoiceActive,
                         lastActivity := now, updatedAt := now))
  }

  /** Once a call has ended, no join or leave brings it back. */
  lemma EndedCallStaysEnded(room: ChatRoom, caller: Id, now: int)
    requires !room.isVoiceActive
    ensures Join(room, caller, now).Failure?
    ensures Leave(room, caller, now).Success? ==> !Leave(room, caller, now).body.isVoiceActive
  {
  }

  /** Leaving right after joining restores the call's list of users. */
  lemma {:induction false} LeaveUndoesJoin(room: ChatRoom, caller: Id, t1: int, t2: int)
    requires RoomOk(room) && Join(room, caller, t1).Success?
    ensures var joined := Join(room, caller, t1).body;
      Leave(joined, caller, t2).Success?
      && Leave(joined, caller, t2).body.activeParticipants == room.activeParticipants
      && Leave(joined, caller, t2).body.isVoiceActive
  {
    var joined := Join(room, caller, t1).body;
    Lists.WithoutAppend(room.activeParticipants, caller);
  }

  /** `joinVoiceRoom`: load the room (404 when absent), then join and save. */
  method JoinVoiceRoom(db: ChatDb, caller: Id, roomId: Id, now: int) returns (reply: Reply<ChatRoom>)
    requires db.Valid()
    modifies db
    ensures db.Valid()
    ensures db.users == old(db.users) && db.messages == old(db.messages)
    ensures FindRoom(old(db.rooms), roomId) < 0 ==> reply == Failure(404, VoiceRoomNotFound) && unchanged(db)
    ensures FindRoom(old(db.rooms), roomId) >= 0 ==>
      var k := FindRoom(old(db.rooms), roomId);
      reply == Join(old(db.rooms)[k], caller, now)
      && db.rooms == (if reply.Success? then old(db.rooms)[k := reply.body] else old(db.rooms))
  {
    var k := FindRoom(db.rooms, roomId);
    if k < 0 {
      return Failure(404, VoiceRoomNotFound);
    }
    reply := Join(db.rooms[k], caller, now);
    if reply.Success? {
      db.rooms := db.rooms[k := reply.body];
    }
  }

  /** `leaveVoiceRoom`: load the room (404 when absent), then leave and save. */
  method LeaveVoiceRoom(db: ChatDb, caller: Id, roomId: Id, now: int) returns (reply: Reply<ChatRoom>)
    requires db.Valid()
    modifies db
    ensures db.Valid()
    ensures db.users == old(db.users) && db.messages == old(db.messages)
    ensures FindRoom(old(db.rooms), roomId) < 0 ==> reply == Failure(404, VoiceRoomNotFound) && unchanged(db)
    ensures FindRoom(old(db.rooms), roomId) >= 0 ==>
      var k := FindRoom(old(db.rooms), roomId);
      reply == Leave(old(db.rooms)[k], caller, now)
      && db.rooms == (if reply.Success? then old(db.rooms)[k := reply.body] else old(db.rooms))
  {
    var k := FindRoom(db.rooms, roomId);
    if k < 0 {
      return Failure(404, VoiceRoomNotFound);
    }
    reply := Leave(db.rooms[k], caller, now);
    if reply.Success? {
      db.rooms := db.rooms[k := reply.body];
    }
  }

  /** Lines 438-451: each listed user not yet a participant is appended as a member, in list order. */
  function AddMissing(ps: seq<Participant>, ids: seq<Id>, now: int): (r: seq<Participant>)
    ensures |ps| <= |r| && r[..|ps|] == ps
    ensures forall i :: 0 <= i < |ids| ==> ids[i] in Users(r)
    ensures forall x :: x in Users(r) <==> x in Users(ps) || x in ids
    ensures forall j :: |ps| <= j < |r| ==> r[j] == NewMember(r[j].user, now)
    decreases |ids|
  {
    if ids == [] then ps
    else
      var next := if ids[0] in Users(ps) then ps else ps + [NewMember(ids[0], now)];
      var r := AddMissing(next, ids[1..], now);
      AddMissingPrefix(ps, next, r, ids[0], now);
      AddMissingCovers(ps, next, r, ids, now);
      r
  }

  /** The step of `AddMissing` keeps the old entries in front and only new members behind them. */
  lemma AddMissingPrefix(ps: seq<Participant>, next: seq<Participant>, r: seq<Participant>, id: Id, now: int)
    requires next == if id in Users(ps) then ps else ps + [NewMember(id, now)]
    requires |next| <= |r| && r[..|next|] == next
    requires forall j :: |next| <= j < |r| ==> r[j] == NewMember(r[j].user, now)
    ensures |ps| <= |r| && r[..|ps|] == ps
    ensures forall j :: |ps| <= j < |r| ==> r[j] == NewMember(r[j].user, now)
  {
    assert r[..|ps|] == r[..|next|][..|ps|];
    forall j | |ps| <= j < |next|
      ensures r[j] == NewMember(r[j].user, now)
    {
      assert r[j] == r[..|next|][j];
    }
  }

  /** The step of `AddMissing` ends with every listed user present and nobody else added. */
  lemma AddMissingCovers(ps: seq<Participant>, next: seq<Participant>, r: seq<Participant>, ids: seq<Id>, now: int)
    requires ids != []
    requires next == if ids[0] in Users(ps) then ps else ps + [NewMember(ids[0], now)]
    requires forall i :: 0 <= i < |ids[1..]| ==> ids[1..][i] in Users(r)
    requires forall x :: x in Users(r) <==> x in Users(next) || x in ids[1..]
    ensures forall i :: 0 <= i < |ids| ==> ids[i] in Users(r)
    ensures forall x :: x in Users(r) <==> x in Users(ps) || x in ids
  {
    UsersAppend(ps, NewMember(ids[0], now));
    assert ids[0] in Users(next);
    assert forall x :: x in ids <==> x == ids[0] || x in ids[1..];
    assert forall i :: 1 <= i < |ids| ==> ids[i] == ids[1..][i - 1];
  }

  /** Adding only the missing users never lists a user twice. */
  lemma {:induction false} AddMissingDistinct(ps: seq<Participant>, ids: seq<Id>, now: int)
    requires Lists.Distinct(Users(ps))
    ensures Lists.Distinct(Users(AddMissing(ps, ids, now)))
    decreases |ids|
  {
    if ids != [] {
      var next := if ids[0] in Users(ps) then ps else ps + [NewMember(ids[0], now)];
      UsersAppend(ps, NewMember(ids[0], now));
      AddMissingDistinct(next, ids[1..], now);
    }
  }

  /** The caller's first participant entry (the one `find` returns) carries the admin role. */
  predicate IsAdmin(room: ChatRoom, user: Id) {
    var me := Lists.FirstIndex(room.participants, (p: Participant) => p.user == user);
    me >= 0 && room.participants[me].role == Admin
  }

  /** The room after the participants are added; the shape of the room is kept. */
  function WithParticipants(room: ChatRoom, ids: seq<Id>, now: int): (r: ChatRoom)
    ensures r == room.(participants := AddMissing(room.participants, ids, now), updatedAt := now)
    ensures RoomOk(room) ==> RoomOk(r)
  {
    var ps := AddMissing(room.participants, ids, now);
    assert forall x :: x in Users(room.participants) ==> x in Users(ps);
    assert RoomOk(room) && room.roomType != Direct ==> Lists.Distinct(Users(ps)) by {
      if RoomOk(room) && room.roomType != Direct {
        AddMissingDistinct(room.participants, ids, now);
      }
    }
    room.(participants := ps, updatedAt := now)
  }

  /** The loop of lines 438-451 over a participant list. */
  method AppendMissing(ps: seq<Participant>, ids: seq<Id>, now: int) returns (r: seq<Participant>)
    ensures r == AddMissing(ps, ids, now)
  {
    r := ps;
    for i := 0 to |ids|
      invariant AddMissing(r, ids[i..], now) == AddMissing(ps, ids, now)
    {
      assert ids[i..][0] == ids[i] && ids[i..][1..] == ids[i + 1..];
      if ids[i] !in Users(r) {
        r := r + [NewMember(ids[i], now)];
      }
    }
    assert ids[|ids|..] == [];
  }

  /**
   * `addParticipants`: a non-empty list is required, the room must exist,
   * the caller must be one of its admins, and every listed user must exist
   * (each listed once); then the users not yet present are appended.
   */
  method AddParticipants(db: ChatDb, caller: Id, roomId: Id, participants: Option<seq<Id>>, now: int)
    returns (reply: Reply<ChatRoom>)
    requires db.Valid()
    modifies db
    ensures db.Valid()
    ensures db.users == old(db.users) && db.messages == old(db.messages)
    ensures participants.None? || participants.value == [] ==>
      reply == Failure(400, ParticipantsRequired) && unchanged(db)
    ensures participants.Some? && participants.value != [] && FindRoom(old(db.rooms), roomId) < 0 ==>
      reply == Failure(404, RoomNotFound) && unchanged(db)
    ensures participants.Some? && participants.value != [] && FindRoom(old(db.rooms), roomId) >= 0 ==>
      var k := FindRoom(old(db.rooms), roomId);
      if !IsAdmin(old(db.rooms)[k], caller) then
        reply == Failure(403, AdminsOnly) && unchanged(db)
      else if |Found(participants.value, old(db.users))| != |participants.value| then
        reply == Failure(400, UnknownParticipant) && unchanged(db)
      else
        var room := WithParticipants(old(db.rooms)[k], participants.value, now);
        reply == Success(200, room) && db.rooms == old(db.rooms)[k := room]
  {
    if participants.None? || participants.value == [] {
      return Failure(400, ParticipantsRequired);
    }
    var k := FindRoom(db.rooms, roomId);
    if k < 0 {
      return Failure(404, RoomNotFound);
    }
    var room := db.rooms[k];
    if !IsAdmin(room, caller) {
      return Failure(403, AdminsOnly);
    }
    var ids := participants.value;
    if |Found(ids, db.users)| != |ids| {
      return Failure(400, UnknownParticipant);
    }
    var ps := AppendMissing(room.participants, ids, now);
    room := room.(participants := ps, updatedAt := now);
    assert room == WithParticipants(db.rooms[k], ids, now);
    db.rooms := db.rooms[k := room];
    reply := Success(200, room);
  }
}
