/** The conversation state store (`ChatProvider`): the four pieces of React state,
    the socket it listens on, and one method per transition.

    Every `await` splits an operation in two atomic steps: the method that issues
    the request (it appends to `outbox`) and the method that applies its reply
    (the reply is a parameter). Error notifications are appended to `toasts`. */
module ChatStore {
  import opened ChatTypes
  import opened ChatUpdaters

  class ChatProvider {
    // React state
    var messages: seq<Message>
    var users: seq<User>
    var selectedUser: Option<User>
    var unseenMessages: map<Id, int>

    // the socket from the authentication context, and the "newMessage" handlers
    // registered on each socket instance
    var socket: Option<SocketId>
    var listeners: multiset<SocketId>
    // the selected user the registered handler closed over when it was subscribed
    var captured: Option<User>
    // false once the provider has been torn down
    var mounted: bool

    // observable effects: requests issued and error toasts raised, oldest first
    var outbox: seq<Request>
    var toasts: seq<string>

    /** While mounted, exactly one handler on the current socket (none without a
        socket), and that handler sees the current selection; after teardown, none. */
    ghost predicate Valid()
      reads this
    {
      && listeners == (if mounted then ActiveListeners(socket) else multiset{})
      && (listeners != multiset{} ==> captured == selectedUser)
    }

    /** Mounting: empty state, then the effect's first run subscribes. */
    constructor (socket: Option<SocketId>)
      ensures Valid() && mounted
      ensures messages == [] && users == [] && selectedUser == None && unseenMessages == map[]
      ensures this.socket == socket && listeners == ActiveListeners(socket)
      ensures outbox == [] && toasts == []
    {
      messages, users, selectedUser, unseenMessages := [], [], None, map[];
      this.socket := socket;
      listeners := Subscribed(multiset{}, socket);
      captured := None;
      mounted := true;
      outbox, toasts := [], [];
      ResubscribeKeepsActive(None, socket);
    }

    // -------------------------------------------------------------------------
    // getUsers
    // -------------------------------------------------------------------------

    /** `getUsers()` up to its `await`: one roster request. */
    method GetUsers()
      requires Valid()
      modifies this`outbox
      ensures Valid()
      ensures outbox == old(outbox) + [FetchUsers]
    {
      outbox := outbox + [FetchUsers];
    }

    /** The rest of `getUsers()`: a successful reply replaces the roster and the
        unseen counts wholesale (`[]` and `{}` when missing); a thrown error raises
        one toast with its message; an unsuccessful reply is ignored. */
    method ReceiveUsers(reply: Reply<UsersBody>)
      requires Valid()
      modifies this`users, this`unseenMessages, this`toasts
      ensures Valid()
      ensures reply.Answered? && reply.data.success ==>
        && users == reply.data.users.GetOr([])
        && unseenMessages == reply.data.unseenMessages.GetOr(map[])
        && toasts == old(toasts)
      ensures reply.Answered? && !reply.data.success ==>
        users == old(users) && unseenMessages == old(unseenMessages) && toasts == old(toasts)
      ensures reply.Threw? ==>
        && users == old(users) && unseenMessages == old(unseenMessages)
        && toasts == old(toasts) + [reply.errorMessage]
    {
      match reply
      case Threw(e) =>
        toasts := toasts + [e];
      case Answered(data) =>
        if data.success {
          users := data.users.GetOr([]);
          unseenMessages := data.unseenMessages.GetOr(map[]);
        }
    }

    // -------------------------------------------------------------------------
    // getMessages
    // -------------------------------------------------------------------------

    /** `getMessages(userId)` up to its `await`: one history request for that peer. */
    method GetMessages(userId: Id)
      requires Valid()
      modifies this`outbox
      ensures Valid()
      ensures outbox == old(outbox) + [FetchMessages(userId)]
    {
      outbox := outbox + [FetchMessages(userId)];
    }

    /** The rest of `getMessages`: a successful reply replaces the message list
        wholesale (`[]` when missing) and issues exactly one roster refresh; a
        thrown error raises one toast; an unsuccessful reply is ignored. */
    method ReceiveMessages(reply: Reply<MessagesBody>)
      requires Valid()
      modifies this`messages, this`outbox, this`toasts
      ensures Valid()
      ensures reply.Answered? && reply.data.success ==>
        && messages == reply.data.messages.GetOr([])
        && outbox == old(outbox) + [FetchUsers]
        && toasts == old(toasts)
      ensures reply.Answered? && !reply.data.success ==>
        messages == old(messages) && outbox == old(outbox) && toasts == old(toasts)
      ensures reply.Threw? ==>
        && messages == old(messages) && outbox == old(outbox)
        && toasts == old(toasts) + [reply.errorMessage]
    {
      match reply
      case Threw(e) =>
        toasts := toasts + [e];
      case Answered(data) =>
        if data.success {
          messages := data.messages.GetOr([]);
          GetUsers();
        }
    }

    // -------------------------------------------------------------------------
    // sendMessage
    // -------------------------------------------------------------------------

    /** `sendMessage(messageData)` up to its `await`: with no selected user, one
        "No user selected." toast and no request; otherwise one post to the
        selected user's id. */
    method SendMessage(draft: Draft)
      requires Valid()
      modifies this`outbox, this`toasts
      ensures Valid()
      ensures selectedUser.None? ==> outbox == old(outbox) && toasts == old(toasts) + [NoUserSelected]
      ensures selectedUser.Some? ==>
        outbox == old(outbox) + [PostMessage(selectedUser.value.id, draft)] && toasts == old(toasts)
    {
      if selectedUser.None? {
        toasts := toasts + [NoUserSelected];
        return;
      }
      outbox := outbox + [PostMessage(selectedUser.value.id, draft)];
    }

    /** The rest of `sendMessage`: `success && newMessage` appends the returned
        message exactly as returned; any other reply raises one toast with the
        server's text or "Send failed"; a thrown error raises one toast with its
        message. */
    method ReceiveSent(reply: Reply<SendBody>)
      requires Valid()
      modifies this`messages, this`toasts
      ensures Valid()
      ensures reply.Answered? && reply.data.success && reply.data.newMessage.Some? ==>
        messages == Appended(old(messages), reply.data.newMessage.value) && toasts == old(toasts)
      ensures reply.Answered? && !(reply.data.success && reply.data.newMessage.Some?) ==>
        messages == old(messages) && toasts == old(toasts) + [SendErrorText(reply.data.message)]
      ensures reply.Threw? ==>
        messages == old(messages) && toasts == old(toasts) + [reply.errorMessage]
    {
      match reply
      case Threw(e) =>
        toasts := toasts + [e];
      case Answered(data) =>
        if data.success && data.newMessage.Some? {
          messages := Appended(messages, data.newMessage.value);
        } else {
          toasts := toasts + [SendErrorText(data.message)];
        }
    }

    // -------------------------------------------------------------------------
    // Push events
    // -------------------------------------------------------------------------

    /** The current socket delivers a "newMessage" event. It reaches the one
        registered handler, which updates the list and counts as
        `HandleNewMessage` says for the current selection; with no handler
        registered (no socket, or torn down) nothing happens. */
    method ReceivePush(payload: Option<Message>)
      requires Valid()
      modifies this`messages, this`unseenMessages, this`outbox
      ensures Valid()
      ensures old(mounted && socket.Some?) ==>
        var r := HandleNewMessage(old(selectedUser), old(messages), old(unseenMessages), payload);
        messages == r.messages && unseenMessages == r.unseen && outbox == old(outbox) + r.requests
      ensures !old(mounted && socket.Some?) ==>
        messages == old(messages) && unseenMessages == old(unseenMessages) && outbox == old(outbox)
    {
      if socket.Some? && listeners[socket.value] > 0 {
        var r := HandleNewMessage(captured, messages, unseenMessages, payload);
        messages, unseenMessages, outbox := r.messages, r.unseen, outbox + r.requests;
      }
    }

    // -------------------------------------------------------------------------
    // Selection, socket change, teardown (the subscription effect)
    // -------------------------------------------------------------------------

    /** `setSelectedUser(u)`; when the selection changes, the effect's cleanup
        runs and it subscribes again, so the handler sees the new selection. */
    method SelectUser(u: Option<User>)
      requires Valid()
      modifies this`selectedUser, this`listeners, this`captured
      ensures Valid()
      ensures selectedUser == u
      ensures listeners == old(listeners)
    {
      if mounted && u != selectedUser {
        assert listeners == ActiveListeners(socket);
        ResubscribeKeepsActive(socket, socket);
        listeners := Resubscribed(listeners, socket, socket);
        if socket.Some? {
          captured := u;
        }
      }
      selectedUser := u;
    }

    /** The authentication context hands over another socket (or none): cleanup
        on the old socket, then subscription on the new one. */
    method ReplaceSocket(s: Option<SocketId>)
      requires Valid()
      modifies this`socket, this`listeners, this`captured
      ensures Valid()
      ensures socket == s
      ensures listeners == (if mounted then ActiveListeners(s) else multiset{})
    {
      if mounted && s != socket {
        ResubscribeKeepsActive(socket, s);
        listeners := Resubscribed(listeners, socket, s);
        if s.Some? {
          captured := selectedUser;
        }
      }
      socket := s;
    }

    /** The raw `setUnseenMessages` setter the context exports: any map at all. */
    method SetUnseenMessages(counts: map<Id, int>)
      requires Valid()
      modifies this`unseenMessages
      ensures Valid()
      ensures unseenMessages == counts
    {
      unseenMessages := counts;
    }

    /** Unmounting: the last cleanup removes the handler; none is left. */
    method Teardown()
      requires Valid()
      modifies this`listeners, this`mounted
      ensures Valid()
      ensures !mounted && listeners == multiset{}
    {
      if mounted {
        TeardownLeavesNone(socket);
        listeners := CleanedUp(listeners, socket);
        mounted := false;
      }
    }
  }
}
