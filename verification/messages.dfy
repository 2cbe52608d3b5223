/**
 * The message controller: listing a room's messages, finding or creating
 * the direct room of two users, sending to a room or to a user, and
 * marking messages read. It shares the chat database with the chat-room
 * controller.
 */
module Messages {
  import opened Shared
  import opened ChatModel
  import opened ChatRooms
  import Lists

  // The error messages the handlers reply with.
  const TargetNotFound := "Target user not found"
  const BodyRequired := "Message content or attachments are required"
  const NotRoomSender := "Not authorized to send messages to this chat room"
  const MessageIdsRequired := "Message IDs are required"

  /** The message's creation time, the key of `sort({ createdAt: 1 })`. */
  function CreatedAt(m: Message): int {
    m.createdAt
  }

  function InRoom(roomId: Id): Message -> bool {
    (m: Message) => m.chatRoom == Some(roomId)
  }

  /** `Message.find({ chatRoom }).sort({ createdAt: 1 })`: the room's messages, oldest first. */
  function RoomMessages(messages: seq<Message>, roomId: Id): (r: seq<Message>)
    ensures Lists.SortedBy(r, CreatedAt)
    ensures multiset(r) == multiset(Lists.Filter(messages, InRoom(roomId)))
    ensures forall i :: 0 <= i < |r| ==> r[i].chatRoom == Some(roomId)
  {
    var own := Lists.Filter(messages, InRoom(roomId));
    var r := Lists.SortBy(own, CreatedAt);
    forall i | 0 <= i < |r|
      ensures r[i].chatRoom == Some(roomId)
    {
      assert r[i] in multiset(own);
      var j :| 0 <= j < |own| && own[j] == r[i];
    }
    r
  }

  /** Every message of the room is listed, and messages created at the same time keep the order they were stored in. */
  lemma RoomMessagesComplete(messages: seq<Message>, roomId: Id, i: int, t: int)
    requires 0 <= i < |messages| && messages[i].chatRoom == Some(roomId)
    ensures messages[i] in RoomMessages(messages, roomId)
    ensures Lists.Filter(RoomMessages(messages, roomId), Lists.KeyIs(CreatedAt, t))
         == Lists.Filter(Lists.Filter(messages, InRoom(roomId)), Lists.KeyIs(CreatedAt, t))
  {
    Lists.FilterMultiset(messages, InRoom(roomId));
    var own := Lists.Filter(messages, InRoom(roomId));
    assert messages[i] in multiset(RoomMessages(messages, roomId));
    Lists.SortByStable(own, CreatedAt, t);
  }

  /** `getChatRoomMessages`: the room must exist and the caller must be one of its participants. */
  function GetChatRoomMessages(rooms: seq<ChatRoom>, messages: seq<Message>, caller: Id, roomId: Id):
    (reply: Reply<seq<Message>>)
    ensures FindRoom(rooms, roomId) < 0 ==> reply == Failure(404, RoomNotFound)
    ensures reply.Success? <==> FindRoom(rooms, roomId) >= 0 && caller in Users(rooms[FindRoom(rooms, roomId)].participants)
    ensures FindRoom(rooms, roomId) >= 0 && reply.Failure? ==> reply == Failure(403, NotRoomMember)
    ensures reply.Success? ==> reply.status == 200 && reply.body == RoomMessages(messages, roomId)
  {
    var k := FindRoom(rooms, roomId);
    if k < 0 then Failure(404, RoomNotFound)
    else if caller !in Users(rooms[k].participants) then Failure(403, NotRoomMember)
    else Success(200, RoomMessages(messages, roomId))
  }

  /** A direct room that lists both users. */
  predicate DirectBetween(room: ChatRoom, a: Id, b: Id) {
    room.roomType == Direct && a in Users(room.participants) && b in Users(room.participants)
  }

  /** `ChatRoom.findOne({ type: 'direct', participants: { $all: [a, b] } })`: the first such room, or -1. */
  function FindDirect(rooms: seq<ChatRoom>, a: Id, b: Id): (k: int)
    ensures -1 <= k < |rooms|
    ensures k >= 0 ==> DirectBetween(rooms[k], a, b)
    ensures k == -1 <==> forall i :: 0 <= i < |rooms| ==> !DirectBetween(rooms[i], a, b)
  {
    Lists.FirstIndex(rooms, (r: ChatRoom) => DirectBetween(r, a, b))
  }

  /** Lines 90-98: the new direct room, named after both users, with both as members. */
  function DirectRoom(id: Id, caller: Id, callerName: string, target: Id, targetName: string, now: int): (room: ChatRoom)
    ensures room.id == id && DirectBetween(room, caller, target)
    ensures Users(room.participants) == [caller, target]
    ensures forall i :: 0 <= i < 2 ==> room.participants[i].role == Member
    ensures room.name == callerName + " & " + targetName
    ensures RoomOk(room)
  {
    var ps := [Participant(caller, Member, now, now), Participant(target, Member, now, now)];
    assert Users(ps) == [caller, target];
    NewRoom(id, callerName + " & " + targetName, Direct, ps, caller, now)
  }

  /**
   * A conversation with oneself matches any direct room of the caller, and
   * when there is none the new room lists the caller twice.
   */
  lemma SelfConversation(rooms: seq<ChatRoom>, id: Id, caller: Id, name: string, now: int)
    ensures Users(DirectRoom(id, caller, name, caller, name, now).participants) == [caller, caller]
    ensures forall i :: 0 <= i < |rooms| && rooms[i].roomType == Direct && caller in Users(rooms[i].participants) ==>
      FindDirect(rooms, caller, caller) >= 0
  {
  }

  /**
   * Lines 69-101 and 239-271: reuse the first direct room of the two users,
   * or create one when the target user exists. The index of the room is
   * returned with the reply.
   */
  method FindOrCreateDirect(db: ChatDb, caller: Id, callerName: string, target: Id, newId: Id, now: int)
    returns (reply: Reply<ChatRoom>, k: int)
    requires db.Valid() && FindRoom(db.rooms, newId) < 0
    modifies db
    ensures db.Valid()
    ensures db.users == old(db.users) && db.messages == old(db.messages)
    ensures FindDirect(old(db.rooms), caller, target) >= 0 ==>
      k == FindDirect(old(db.rooms), caller, target) && reply == Success(200, old(db.rooms)[k]) && unchanged(db)
    ensures FindDirect(old(db.rooms), caller, target) < 0 && target !in old(db.users) ==>
      reply == Failure(404, TargetNotFound) && unchanged(db)
    ensures FindDirect(old(db.rooms), caller, target) < 0 && target in old(db.users) ==>
      var room := DirectRoom(newId, caller, callerName, target, old(db.users)[target], now);
      reply == Success(201, room) && db.rooms == old(db.rooms) + [room] && k == |old(db.rooms)|
    ensures reply.Success? ==> 0 <= k < |db.rooms| && db.rooms[k] == reply.body && DirectBetween(reply.body, caller, target)
  {
    k := FindDirect(db.rooms, caller, target);
    if k >= 0 {
      return Success(200, db.rooms[k]), k;
    }
    if target !in db.users {
      return Failure(404, TargetNotFound), -1;
    }
    var room := DirectRoom(newId, caller, callerName, target, db.users[target], now);
    k := |db.rooms|;
    db.AddRoom(room);
    reply := Success(201, room);
  }

  datatype Thread = Thread(room: ChatRoom, messages: seq<Message>)

  /** `getDirectMessages`: find or create the direct room, then list its messages oldest first. */
  method GetDirectMessages(db: ChatDb, caller: Id, callerName: string, target: Id, newId: Id, now: int)
    returns (reply: Reply<Thread>)
    requires db.Valid() && FindRoom(db.rooms, newId) < 0
    modifies db
    ensures db.Valid()
    ensures db.users == old(db.users) && db.messages == old(db.messages)
    ensures FindDirect(old(db.rooms), caller, target) < 0 && target !in old(db.users) ==>
      reply == Failure(404, TargetNotFound) && unchanged(db)
    ensures reply.Success? ==>
      reply.status == 200 && DirectBetween(reply.body.room, caller, target)
      && reply.body.messages == RoomMessages(db.messages, reply.body.room.id)
    ensures FindDirect(old(db.rooms), caller, target) >= 0 || target in old(db.users) ==> reply.Success?
  {
    var found, k := FindOrCreateDirect(db, caller, callerName, target, newId, now);
    if found.Failure? {
      return Failure(found.status, found.error);
    }
    reply := Success(200, Thread(found.body, RoomMessages(db.messages, found.body.id)));
  }

  /** Lines 143-148: a message needs content or at least one attachment. */
  predicate HasBody(content: Option<string>, attachments: Option<seq<AttachmentInput>>) {
    Present(content) || (attachments.Some? && attachments.value != [])
  }

  /**
   * Lines 183-193: the room's last message is the new one, its activity is
   * now, and the sender's first participant entry is last seen now.
   */
  function Touch(room: ChatRoom, messageId: Id, sender: Id, now: int): (r: ChatRoom)
    ensures r.lastMessage == Some(messageId) && r.lastActivity == now && r.updatedAt == now
    ensures Users(r.participants) == Users(room.participants)
    ensures var k := Lists.FirstIndex(room.participants, (p: Participant) => p.user == sender);
      forall i :: 0 <= i < |room.participants| ==>
        r.participants[i] == if i == k then room.participants[i].(lastSeen := now) else room.participants[i]
    ensures r == room.(participants := r.participants, lastMessage := Some(messageId), lastActivity := now, updatedAt := now)
    ensures RoomOk(room) ==> RoomOk(r)
  {
    var k := Lists.FirstIndex(room.participants, (p: Participant) => p.user == sender);
    var ps := if k == -1 then room.participants else room.participants[k := room.participants[k].(lastSeen := now)];
    assert Users(ps) == Users(room.participants);
    room.(participants := ps, lastMessage := Some(messageId), lastActivity := now, updatedAt := now)
  }

  /**
   * `sendChatRoomMessage`: content or attachments are required; the room
   * must exist and list the caller; the message must pass the schema (so
   * an attachments-only message is refused on save, a 500); then the room
   * records it as its last message.
   */
  method SendChatRoomMessage(db: ChatDb, caller: Id, roomId: Id, content: Option<string>,
                             attachments: Option<seq<AttachmentInput>>, messageId: Id, now: int)
    returns (reply: Reply<Message>)
    requires db.Valid()
    modifies db
    ensures db.Valid()
    ensures db.users == old(db.users)
    ensures !HasBody(content, attachments) ==>
      reply == Failure(400, BodyRequired) && unchanged(db)
    ensures HasBody(content, attachments) && FindRoom(old(db.rooms), roomId) < 0 ==>
      reply == Failure(404, RoomNotFound) && unchanged(db)
    ensures (HasBody(content, attachments) && FindRoom(old(db.rooms), roomId) >= 0
             && caller !in Users(old(db.rooms)[FindRoom(old(db.rooms), roomId)].participants)) ==>
      reply == Failure(403, NotRoomSender) && unchanged(db)
    ensures (HasBody(content, attachments) && FindRoom(old(db.rooms), roomId) >= 0
             && caller in Users(old(db.rooms)[FindRoom(old(db.rooms), roomId)].participants)) ==>
      var k := FindRoom(old(db.rooms), roomId);
      var m := NewMessage(messageId, Some(caller), None, Some(roomId), content, attachments.GetOr([]), now);
      if m.Invalid? then
        reply == ServerError() && unchanged(db)
      else
        reply == Success(201, m.doc)
        && db.messages == old(db.messages) + [m.doc]
        && db.rooms == old(db.rooms)[k := Touch(old(db.rooms)[k], messageId, caller, now)]
  {
    if !HasBody(content, attachments) {
      return Failure(400, BodyRequired);
    }
    var k := FindRoom(db.rooms, roomId);
    if k < 0 {
      return Failure(404, RoomNotFound);
    }
    if caller !in Users(db.rooms[k].participants) {
      return Failure(403, NotRoomSender);
    }
    var m := NewMessage(messageId, Some(caller), None, Some(roomId), content, attachments.GetOr([]), now);
    if m.Invalid? {
      return ServerError();
    }
    Post(db, k, m.doc, caller, now);
    reply := Success(201, m.doc);
  }

  /** Saves a message and records it as the last message of room `k`, stamping the sender's `lastSeen`. */
  method Post(db: ChatDb, k: nat, doc: Message, sender: Id, now: int)
    requires db.Valid() && k < |db.rooms|
    modifies db
    ensures db.Valid() && db.users == old(db.users)
    ensures db.messages == old(db.messages) + [doc]
    ensures db.rooms == old(db.rooms)[k := Touch(old(db.rooms)[k], doc.id, sender, now)]
  {
    db.messages := db.messages + [doc];
    db.rooms := db.rooms[k := Touch(db.rooms[k], doc.id, sender, now)];
  }

  /**
   * `sendDirectMessage`: content or attachments are required; the direct
   * room is found or created (a missing target is a 404); the message names
   * the target as recipient. A message refused on save leaves a room just
   * created in place.
   */
  method SendDirectMessage(db: ChatDb, caller: Id, callerName: string, target: Id, content: Option<string>,
                           attachments: Option<seq<AttachmentInput>>, messageId: Id, newRoomId: Id, now: int)
    returns (reply: Reply<Thread>)
    requires db.Valid() && FindRoom(db.rooms, newRoomId) < 0
    modifies db
    ensures db.Valid()
    ensures db.users == old(db.users)
    ensures !HasBody(content, attachments) ==>
      reply == Failure(400, BodyRequired) && unchanged(db)
    ensures HasBody(content, attachments) && FindDirect(old(db.rooms), caller, target) < 0 && target !in old(db.users) ==>
      reply == Failure(404, TargetNotFound) && unchanged(db)
    ensures reply.Success? ==>
      reply.status == 201 && |reply.body.messages| == 1
      && reply.body.messages[0].recipient == Some(target) && reply.body.messages[0].sender == caller
      && reply.body.messages[0].chatRoom == Some(reply.body.room.id)
      && db.messages == old(db.messages) + reply.body.messages
      && DirectBetween(reply.body.room, caller, target) && reply.body.room.lastMessage == Some(messageId)
    ensures HasBody(content, attachments) && !Present(content) ==> reply.Failure?
    ensures (Present(content) && caller != "" && NewAttachments(attachments.GetOr([])).Valid?
             && (FindDirect(old(db.rooms), caller, target) >= 0 || target in old(db.users))) ==> reply.Success?
    ensures HasBody(content, attachments) && FindDirect(old(db.rooms), caller, target) >= 0 ==>
      var k := FindDirect(old(db.rooms), caller, target);
      (reply.Success? ==> db.rooms == old(db.rooms)[k := Touch(old(db.rooms)[k], messageId, caller, now)])
      && (reply.Failure? ==> reply == ServerError() && unchanged(db))
    ensures HasBody(content, attachments) && FindDirect(old(db.rooms), caller, target) < 0 && target in old(db.users) ==>
      var room := DirectRoom(newRoomId, caller, callerName, target, old(db.users)[target], now);
      (reply.Success? ==> db.rooms == old(db.rooms) + [Touch(room, messageId, caller, now)])
      && (reply.Failure? ==> reply == ServerError() && db.rooms == old(db.rooms) + [room] && db.messages == old(db.messages))
  {
    if !HasBody(content, attachments) {
      return Failure(400, BodyRequired);
    }
    var found, k := FindOrCreateDirect(db, caller, callerName, target, newRoomId, now);
    if found.Failure? {
      return Failure(found.status, found.error);
    }
    var room := found.body;
    var m := NewMessage(messageId, Some(caller), Some(target), Some(room.id), content, attachments.GetOr([]), now);
    if m.Invalid? {
      return ServerError();
    }
    Post(db, k, m.doc, caller, now);
    reply := Success(201, Thread(db.rooms[k], [m.doc]));
  }

  /** The messages `updateMany` matches: listed, addressed to the caller, and unread. */
  function Unread(caller: Id, ids: seq<Id>): Message -> bool {
    (m: Message) => m.id in ids && m.recipient == Some(caller) && !m.read
  }

  function MarkRead(now: int): Message -> Message {
    (m: Message) => m.(read := true, readAt := Some(now))
  }

  /** The message list after lines 343-355, and the number of messages changed. */
  function ReadAll(messages: seq<Message>, caller: Id, ids: seq<Id>, now: int): (r: (seq<Message>, nat))
    ensures |r.0| == |messages|
    ensures r.1 == Lists.Count(messages, Unread(caller, ids))
    ensures forall i :: 0 <= i < |messages| ==>
      r.0[i] == if Unread(caller, ids)(messages[i]) then messages[i].(read := true, readAt := Some(now)) else messages[i]
  {
    var r := Lists.MapWhere(messages, Unread(caller, ids), MarkRead(now));
    forall i | 0 <= i < |messages| {
      Lists.MapWhereFrame(messages, Unread(caller, ids), MarkRead(now), i);
    }
    (r, Lists.Count(messages, Unread(caller, ids)))
  }

  /** Marking is idempotent: a second identical request changes nothing and reports 0. */
  lemma ReadAllTwice(messages: seq<Message>, caller: Id, ids: seq<Id>, t1: int, t2: int)
    ensures var once := ReadAll(messages, caller, ids, t1).0;
      ReadAll(once, caller, ids, t2) == (once, 0)
  {
    var once := ReadAll(messages, caller, ids, t1).0;
    assert forall i :: 0 <= i < |once| ==> !Unread(caller, ids)(once[i]);
    var twice := ReadAll(once, caller, ids, t2).0;
    assert twice == once;
  }

  /** Only messages addressed to the caller are ever marked. */
  lemma ReadAllOnlyOwn(messages: seq<Message>, caller: Id, ids: seq<Id>, now: int, i: int)
    requires 0 <= i < |messages| && messages[i].recipient != Some(caller)
    ensures ReadAll(messages, caller, ids, now).0[i] == messages[i]
  {
  }

  /** `markMessagesAsRead`: a non-empty id list is required; the reply reports how many messages changed. */
  method MarkMessagesAsRead(db: ChatDb, caller: Id, messageIds: Option<seq<Id>>, now: int) returns (reply: Reply<nat>)
    requires db.Valid()
    modifies db
    ensures db.Valid()
    ensures db.users == old(db.users) && db.rooms == old(db.rooms)
    ensures messageIds.None? || messageIds.value == [] ==>
      reply == Failure(400, MessageIdsRequired) && unchanged(db)
    ensures messageIds.Some? && messageIds.value != [] ==>
      var r := ReadAll(old(db.messages), caller, messageIds.value, now);
      db.messages == r.0 && reply == Success(200, r.1)
  {
    if messageIds.None? || messageIds.value == [] {
      return Failure(400, MessageIdsRequired);
    }
    var r := ReadAll(db.messages, caller, messageIds.value, now);
    db.messages := r.0;
    reply := Success(200, r.1);
  }
}
