/** The values the conversation store holds and exchanges with the server:
    users, messages, the bodies of the three REST replies, and the requests
    the store issues. */
module ChatTypes {

  /** A MongoDB-style `_id`, carried as text. */
  type Id = string

  /** A socket connection instance; the store only ever compares them. */
  type SocketId = nat

  /** `null` / `undefined` on the JavaScript side. */
  datatype Option<T> = None | Some(value: T) {
    /** `x || d` for an object-valued `x`: every object is truthy. */
    function GetOr(default: T): T {
      match this
      case Some(v) => v
      case None => default
    }
  }

  /** A roster entry. The store reads only `_id`; the profile fields are carried along. */
  datatype User = User(id: Id, fullName: string, profilePic: string)

  /** A message record as the server returns it. `senderId` may be missing on a push payload. */
  datatype Message = Message(
    id: Id,
    senderId: Option<Id>,
    receiverId: Id,
    text: string,
    image: string,
    seen: bool,
    createdAt: string)

  /** The body posted by `sendMessage`. */
  datatype Draft = Draft(text: string, image: string)

  /** The outcome of one awaited HTTP call: it threw (network error, non-2xx status),
      or it answered with a body. */
  datatype Reply<T> = Threw(errorMessage: string) | Answered(data: T)

  /** Body of `GET /api/messages/users`. */
  datatype UsersBody = UsersBody(success: bool, users: Option<seq<User>>, unseenMessages: Option<map<Id, int>>)

  /** Body of `GET /api/messages/:id`. */
  datatype MessagesBody = MessagesBody(success: bool, messages: Option<seq<Message>>)

  /** Body of `POST /api/messages/send/:id`. */
  datatype SendBody = SendBody(success: bool, newMessage: Option<Message>, message: Option<string>)

  /** An HTTP request the store issues. */
  datatype Request =
    | FetchUsers                                 // GET  /api/messages/users
    | FetchMessages(peerId: Id)                  // GET  /api/messages/:peerId
    | PostMessage(peerId: Id, draft: Draft)      // POST /api/messages/send/:peerId
    | MarkSeen(messageId: Id)                    // PUT  /api/messages/mark/:messageId

  const NoUserSelected: string := "No user selected."
  const SendFailed: string := "Send failed"

  /** JavaScript truthiness of an optional string: present and not empty. */
  predicate Truthy(s: Option<string>) {
    s.Some? && s.value != ""
  }
}
