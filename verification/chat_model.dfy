/**
 * The chat documents. A chat room lists its participants (user, role, join
 * and last-seen times); a voice room also keeps the users currently in the
 * call and whether the call is live. A message has a sender, content,
 * optional typed attachments, and a recipient or a room (or both).
 */
module ChatModel {
  import opened Shared

  type Id = string

  datatype RoomType = Direct | Group | Voice

  datatype Role = Admin | Moderator | Member

  datatype Participant = Participant(user: Id, role: Role, joinedAt: int, lastSeen: int)

  /** A chat-room document; `updatedAt` is refreshed by the pre-save hook on every save. */
  datatype ChatRoom = ChatRoom(
    id: Id, name: string, roomType: RoomType, participants: seq<Participant>,
    description: Option<string>, lastMessage: Option<Id>, lastActivity: int,
    isVoiceActive: bool, activeParticipants: seq<Id>, topic: Option<string>,
    scheduledFor: Option<int>, duration: Option<int>, createdBy: Id, updatedAt: int)

  /** The users of a participant list, in order. */
  function Users(ps: seq<Participant>): (r: seq<Id>)
    ensures |r| == |ps| && forall i :: 0 <= i < |ps| ==> r[i] == ps[i].user
  {
    seq(|ps|, i requires 0 <= i < |ps| => ps[i].user)
  }

  /** Appending an entry appends its user. */
  lemma UsersAppend(ps: seq<Participant>, p: Participant)
    ensures Users(ps + [p]) == Users(ps) + [p.user]
  {
    assert forall i :: 0 <= i < |ps| ==> (ps + [p])[i] == ps[i];
  }

  /** A participant entry as the handlers add it: a member, joined and last seen now. */
  function NewMember(user: Id, now: int): (p: Participant)
    ensures p.user == user && p.role == Member
  {
    Participant(user, Member, now, now)
  }

  /** A room with the schema's defaults for the fields its creator leaves out. */
  function NewRoom(id: Id, name: string, roomType: RoomType, participants: seq<Participant>, createdBy: Id, now: int):
    (room: ChatRoom)
    ensures room.id == id && room.roomType == roomType && room.participants == participants
    ensures room.lastMessage.None? && !room.isVoiceActive && room.activeParticipants == []
    ensures room.lastActivity == now && room.updatedAt == now
  {
    ChatRoom(id, name, roomType, participants, None, None, now, false, [], None, None, None, createdBy, now)
  }

  datatype AttachmentType = Image | Document | Audio | Video

  datatype Attachment = Attachment(kind: AttachmentType, url: string, name: Option<string>)

  /** An attachment as the request body gives it. */
  datatype AttachmentInput = AttachmentInput(kind: Option<string>, url: Option<string>, name: Option<string>)

  datatype Message = Message(
    id: Id, sender: Id, recipient: Option<Id>, chatRoom: Option<Id>, content: string,
    attachments: seq<Attachment>, read: bool, readAt: Option<int>, createdAt: int)

  function ParseAttachmentType(s: string): Option<AttachmentType> {
    match s
    case "image" => Some(Image)
    case "document" => Some(Document)
    case "audio" => Some(Audio)
    case "video" => Some(Video)
    case _ => None
  }

  function AttachmentTypeName(t: AttachmentType): string {
    match t
    case Image => "image"
    case Document => "document"
    case Audio => "audio"
    case Video => "video"
  }

  /** The attachment types are exactly the four names. */
  lemma AttachmentTypeNames(t: AttachmentType, s: string)
    ensures ParseAttachmentType(AttachmentTypeName(t)) == Some(t)
    ensures ParseAttachmentType(s).Some? ==> AttachmentTypeName(ParseAttachmentType(s).value) == s
  {
  }

  /** An attachment needs a type among the four and a url. */
  function NewAttachment(a: AttachmentInput): (r: Validated<Attachment>)
    ensures r.Valid? <==> Present(a.kind) && ParseAttachmentType(a.kind.value).Some? && Present(a.url)
    ensures r.Valid? ==> AttachmentTypeName(r.doc.kind) == a.kind.value && r.doc.url == a.url.value
  {
    if !Present(a.kind) then Invalid(Missing("attachments.type"))
    else if ParseAttachmentType(a.kind.value).None? then Invalid(NotInEnum("attachments.type"))
    else if !Present(a.url) then Invalid(Missing("attachments.url"))
    else Valid(Attachment(ParseAttachmentType(a.kind.value).value, a.url.value, a.name))
  }

  /** Every attachment of a list must validate. */
  function NewAttachments(xs: seq<AttachmentInput>): (r: Validated<seq<Attachment>>)
    ensures r.Valid? <==> forall i :: 0 <= i < |xs| ==> NewAttachment(xs[i]).Valid?
    ensures r.Valid? ==> |r.doc| == |xs| && forall i :: 0 <= i < |xs| ==> r.doc[i] == NewAttachment(xs[i]).doc
  {
    if xs == [] then Valid([])
    else
      var first := NewAttachment(xs[0]);
      var rest := NewAttachments(xs[1..]);
      if first.Invalid? then Invalid(first.error)
      else if rest.Invalid? then Invalid(rest.error)
      else
        var r := [first.doc] + rest.doc;
        assert forall i :: 1 <= i < |xs| ==> xs[i] == xs[1..][i - 1];
        Valid(r)
  }

  /**
   * Saving a message: the schema's validation (sender and content required,
   * each attachment valid), then the pre-save hook that wants a recipient or
   * a room. A new message is unread.
   */
  function NewMessage(id: Id, sender: Option<Id>, recipient: Option<Id>, chatRoom: Option<Id>,
                      content: Option<string>, attachments: seq<AttachmentInput>, now: int): (r: Validated<Message>)
    ensures r.Valid? <==>
      Present(sender) && Present(content) && NewAttachments(attachments).Valid?
      && (recipient.Some? || chatRoom.Some?)
    ensures r.Valid? ==>
      r.doc.id == id && r.doc.sender == sender.value && r.doc.recipient == recipient && r.doc.chatRoom == chatRoom
      && r.doc.content == content.value && |r.doc.attachments| == |attachments|
      && !r.doc.read && r.doc.readAt.None? && r.doc.createdAt == now
    ensures (recipient.None? && chatRoom.None? && Present(sender) && Present(content)
             && NewAttachments(attachments).Valid?) ==>
      r.Invalid? && r.error == HookError("Message must have either a recipient or a chat room")
  {
    if !Present(sender) then Invalid(Missing("sender"))
    else if !Present(content) then Invalid(Missing("content"))
    else if NewAttachments(attachments).Invalid? then Invalid(NewAttachments(attachments).error)
    else if recipient.None? && chatRoom.None? then Invalid(HookError("Message must have either a recipient or a chat room"))
    else Valid(Message(id, sender.value, recipient, chatRoom, content.value, NewAttachments(attachments).doc, false, None, now))
  }

  /** A message that carries only attachments is refused on save: content is required. */
  lemma AttachmentsOnlyRefused(id: Id, sender: Id, room: Id, attachments: seq<AttachmentInput>, now: int)
    requires sender != ""
    ensures NewMessage(id, Some(sender), None, Some(room), Some(""), attachments, now) == Invalid(Missing("content"))
    ensures NewMessage(id, Some(sender), None, Some(room), None, attachments, now) == Invalid(Missing("content"))
  {
  }
}
