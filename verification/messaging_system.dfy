/**
 * The shared messaging component: the chat rooms, the active room and its
 * messages, the message input, and the new-chat form. Sending updates local
 * state only. `Date.now()` and `new Date().toISOString()` are parameters.
 */
module MessagingSystem {
  import opened Shared
  import opened JsObject
  import JsText
  import Lists

  const CurrentUserId := "current-user-id"
  const CurrentUserName := "John Doe"

  datatype Participant = Participant(userId: string, name: string, username: string, role: string)

  /** The summary of a message a room keeps as its `lastMessage`. */
  datatype LastMessage = LastMessage(id: string, content: string, senderId: string, senderName: string, createdAt: string)

  datatype Room = Room(id: string, name: string, kind: string, participants: seq<Participant>,
                       lastMessage: Option<LastMessage>, lastActivity: string)

  datatype Message = Message(id: string, senderId: string, senderName: string, content: string, createdAt: string, read: bool)

  /** The new-chat form; `participants` starts as an empty array and becomes a string once typed into. */
  datatype NewChatData = NewChatData(kind: string, recipient: string, name: string, participants: Value, topic: string)

  const InitialNewChat := NewChatData("direct", "", "", Arr([]), "")

  /** The message `sendMessage` builds: sent by the current user, already read, with the input as typed. */
  function OutgoingMessage(input: string, now: int, nowIso: string): (m: Message)
    ensures m.senderId == CurrentUserId && m.content == input && m.createdAt == nowIso && m.read
    ensures m.id == "new-" + JsText.IntToString(now)
  {
    Message("new-" + JsText.IntToString(now), CurrentUserId, CurrentUserName, input, nowIso, true)
  }

  /** The active room after a send: the message as its last message, and the message's time as its last activity. */
  function WithLastMessage(room: Room, m: Message): (r: Room)
    ensures r.lastMessage == Some(LastMessage(m.id, m.content, m.senderId, m.senderName, m.createdAt))
    ensures r.lastActivity == m.createdAt
    ensures r.id == room.id && r.name == room.name && r.kind == room.kind && r.participants == room.participants
  {
    room.(lastMessage := Some(LastMessage(m.id, m.content, m.senderId, m.senderName, m.createdAt)), lastActivity := m.createdAt)
  }

  function RoomIs(id: string): Room -> bool {
    (r: Room) => r.id == id
  }

  function Becomes(room: Room): Room -> Room {
    (_: Room) => room
  }

  /** `createNewChat`'s checks: the alert it shows, if any. */
  function NewChatError(d: NewChatData): (err: Option<string>)
    ensures err.None? <==>
      (d.kind == "direct" ==> d.recipient != "") && (d.kind == "group" || d.kind == "voice" ==> d.name != "")
    ensures d.kind == "direct" && d.recipient == "" ==> err == Some("Please select a recipient")
    ensures d.kind == "group" && d.name == "" ==> err == Some("Please enter a group name")
    ensures d.kind == "voice" && d.name == "" ==> err == Some("Please enter a voice room name")
  {
    if d.kind == "direct" && d.recipient == "" then Some("Please select a recipient")
    else if d.kind == "group" && d.name == "" then Some("Please enter a group name")
    else if d.kind == "voice" && d.name == "" then Some("Please enter a voice room name")
    else None
  }

  /** `name.toLowerCase().replace(/\s+/g, '')`. */
  function Username(name: string): (u: string)
    ensures |u| <= |name|
    ensures forall i :: 0 <= i < |u| ==> !JsText.IsSpace(u[i]) && !('A' <= u[i] <= 'Z')
  {
    var lower := JsText.ToLower(name);
    assert forall c :: c in lower ==> !('A' <= c <= 'Z');
    JsText.RemoveSpaces(lower)
  }

  /**
   * The group's participant names: split on ',', trimmed, empties dropped.
   * While the field still holds its initial empty array, `.split` throws and
   * no chat is created (`None`).
   */
  function ParticipantNames(participants: Value): (names: Option<seq<string>>)
    ensures names.Some? <==> participants.Str?
    ensures names.Some? ==> forall i :: 0 <= i < |names.value| ==>
      var n := names.value[i];
      n != "" && !JsText.IsSpace(n[0]) && !JsText.IsSpace(n[|n| - 1]) && ',' !in n
  {
    match participants
    case Str(s) =>
      CleanNames(s);
      Some(JsText.NonEmpty(JsText.SplitTrim(s, ',')))
    case _ => None
  }

  /** The trimmed, non-empty pieces of a comma-separated list are non-blank at both ends and hold no comma. */
  lemma CleanNames(s: string)
    ensures var names := JsText.NonEmpty(JsText.SplitTrim(s, ','));
      forall i :: 0 <= i < |names| ==>
        names[i] != "" && !JsText.IsSpace(names[i][0]) && !JsText.IsSpace(names[i][|names[i]| - 1]) && ',' !in names[i]
  {
    var pieces := JsText.SplitTrim(s, ',');
    CleanPieces(s);
    var names := JsText.NonEmpty(pieces);
    forall i | 0 <= i < |names|
      ensures CleanPiece(names[i])
    {
      assert names[i] in pieces;
    }
  }

  /** No comma, and no white space at either end. */
  predicate CleanPiece(x: string) {
    ',' !in x && (x == [] || (!JsText.IsSpace(x[0]) && !JsText.IsSpace(x[|x| - 1])))
  }

  lemma CleanPieces(s: string)
    ensures forall x :: x in JsText.SplitTrim(s, ',') ==> CleanPiece(x)
  {
    var split := JsText.Split(s, ',');
    var pieces := JsText.SplitTrim(s, ',');
    forall j | 0 <= j < |pieces|
      ensures CleanPiece(pieces[j])
    {
      TrimKeepsOut(split[j], ',');
    }
  }

  /** Trimming never adds a character. */
  lemma TrimKeepsOut(s: string, c: char)
    requires c !in s
    ensures c !in JsText.Trim(s)
  {
    JsText.TrimSlice(s);
  }

  /** The member entries for the group's participants, numbered in order. */
  function GroupMembers(names: seq<string>): (ps: seq<Participant>)
    ensures |ps| == |names|
    ensures forall i :: 0 <= i < |names| ==>
      ps[i] == Participant("participant-" + JsText.IntToString(i), names[i], Username(names[i]), "member")
  {
    seq(|names|, i requires 0 <= i < |names| =>
      Participant("participant-" + JsText.IntToString(i), names[i], Username(names[i]), "member"))
  }

  /** The room a direct chat creates: the current user and the named recipient, both members. */
  function DirectRoom(recipient: string, now: int, nowIso: string): (r: Room)
    ensures r.id == "new-" + JsText.IntToString(now) && r.kind == "direct" && r.lastMessage.None?
    ensures r.name == "John Doe & " + recipient
    ensures |r.participants| == 2 && r.participants[0].userId == CurrentUserId && r.participants[1].name == recipient
    ensures forall p :: p in r.participants ==> p.role == "member"
  {
    Room("new-" + JsText.IntToString(now), "John Doe & " + recipient, "direct",
         [Participant(CurrentUserId, CurrentUserName, "johndoe", "member"),
          Participant("new-user-id", recipient, Username(recipient), "member")],
         None, nowIso)
  }

  class Messaging {
    var chatRooms: seq<Room>
    var activeRoom: Option<Room>
    var messages: seq<Message>
    var messageInput: string
    var showNewChatForm: bool
    var newChatData: NewChatData

    constructor ()
      ensures chatRooms == [] && activeRoom.None? && messages == [] && messageInput == ""
      ensures !showNewChatForm && newChatData == InitialNewChat
    {
      chatRooms := [];
      activeRoom := None;
      messages := [];
      messageInput := "";
      showNewChatForm := false;
      newChatData := InitialNewChat;
    }

    /**
     * `selectChatRoom`: the room becomes the active one, which the send form
     * needs, and once the fetch settles the list shows the messages it loaded.
     */
    method SelectChatRoom(room: Room, fetched: seq<Message>)
      modifies this
      ensures activeRoom == Some(room) && messages == fetched
      ensures chatRooms == old(chatRooms) && messageInput == old(messageInput)
      ensures showNewChatForm == old(showNewChatForm) && newChatData == old(newChatData)
    {
      activeRoom := Some(room);
      messages := fetched;
    }

    method MessageInputChange(value: string)
      modifies this
      ensures messageInput == value
      ensures chatRooms == old(chatRooms) && activeRoom == old(activeRoom) && messages == old(messages)
      ensures newChatData == old(newChatData)
    {
      messageInput := value;
    }

    /**
     * `sendMessage`: whitespace-only input is ignored; otherwise the message
     * is appended, the active room and its entry in the room list take it as
     * their last message, and the input is cleared.
     */
    method SendMessage(now: int, nowIso: string)
      requires activeRoom.Some?
      modifies this
      ensures JsText.Trim(old(messageInput)) == "" ==>
        messages == old(messages) && activeRoom == old(activeRoom) && chatRooms == old(chatRooms)
        && messageInput == old(messageInput)
      ensures JsText.Trim(old(messageInput)) != "" ==>
        var m := OutgoingMessage(old(messageInput), now, nowIso);
        var updated := WithLastMessage(old(activeRoom).value, m);
        messages == old(messages) + [m] && activeRoom == Some(updated)
        && chatRooms == Lists.MapWhere(old(chatRooms), RoomIs(updated.id), Becomes(updated))
        && messageInput == ""
      ensures newChatData == old(newChatData) && showNewChatForm == old(showNewChatForm)
    {
      var m := OutgoingMessage(messageInput, now, nowIso);
      var updated := WithLastMessage(activeRoom.value, m);
      if JsText.Trim(messageInput) == "" {
        return;
      }
      Deliver(m, updated);
    }

    /** The state updates of a send: the message shown, the active room and its list entry replaced, the input cleared. */
    method Deliver(m: Message, updated: Room)
      modifies this
      ensures messages == old(messages) + [m] && activeRoom == Some(updated)
      ensures chatRooms == Lists.MapWhere(old(chatRooms), RoomIs(updated.id), Becomes(updated))
      ensures messageInput == ""
      ensures newChatData == old(newChatData) && showNewChatForm == old(showNewChatForm)
    {
      messages := messages + [m];
      activeRoom := Some(updated);
      chatRooms := Lists.MapWhere(chatRooms, RoomIs(updated.id), Becomes(updated));
      messageInput := "";
    }

    /** `handleNewChatInputChange` for the form's text fields. */
    method NewChatInputChange(name: string, value: string)
      modifies this
      ensures newChatData == SetChatField(old(newChatData), name, value)
      ensures chatRooms == old(chatRooms) && activeRoom == old(activeRoom) && messages == old(messages)
      ensures messageInput == old(messageInput)
    {
      newChatData := SetChatField(newChatData, name, value);
    }
  }

  /** `{...newChatData, [name]: value}` on the fields the form reads. */
  function SetChatField(d: NewChatData, name: string, value: string): (r: NewChatData)
    ensures name == "type" ==> r == d.(kind := value)
    ensures name == "recipient" ==> r == d.(recipient := value)
    ensures name == "name" ==> r == d.(name := value)
    ensures name == "participants" ==> r == d.(participants := Str(value))
    ensures name == "topic" ==> r == d.(topic := value)
    ensures name !in {"type", "recipient", "name", "participants", "topic"} ==> r == d
  {
    match name
    case "type" => d.(kind := value)
    case "recipient" => d.(recipient := value)
    case "name" => d.(name := value)
    case "participants" => d.(participants := Str(value))
    case "topic" => d.(topic := value)
    case _ => d
  }

  /** A send changes no room in the list other than the active one. */
  lemma SendTouchesActiveRoomOnly(rooms: seq<Room>, updated: Room, j: int)
    requires 0 <= j < |rooms| && rooms[j].id != updated.id
    ensures Lists.MapWhere(rooms, RoomIs(updated.id), Becomes(updated))[j] == rooms[j]
  {
    Lists.MapWhereFrame(rooms, RoomIs(updated.id), Becomes(updated), j);
  }

  /** A group chat whose participants field was never typed into fails at `.split`; typing anything makes it succeed. */
  lemma GroupNeedsTypedParticipants(typed: string)
    ensures ParticipantNames(InitialNewChat.participants).None?
    ensures SetChatField(InitialNewChat, "participants", typed).participants.Str?
    ensures ParticipantNames(SetChatField(InitialNewChat, "participants", typed).participants).Some?
  {
  }
}
