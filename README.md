# Chat conversation store — a Dafny model

This project models the client-side conversation store of a two-party chat
application (`ChatProvider` in `client/context/ChatContext.jsx`). The store
holds four pieces of state:

- `messages`, the open conversation;
- `users`, the roster;
- `selectedUser`, the open peer, or none;
- `unseenMessages`, a map from sender id to an unseen-message count.

It changes that state in response to REST replies and to `"newMessage"` push
events from a socket. It also keeps exactly one push listener registered by
calling `off` before `on` every time the socket or the selection changes.

The project has three modules and one module of scenarios:

- `ChatTypes` (`types.dfy`): users, messages, the three reply bodies, the
  requests the store issues, and an `Option` type with `GetOr`, which plays
  the part of `x || default`.
- `ChatUpdaters` (`updaters.dfy`): the pure updaters the store hands to its
  setters.
  - `Appended` models `[...prev, x]`.
  - `Bumped` models `{...prev, [k]: (prev[k] || 0) + 1}`.
  - `Reset` models `{...prev, [k]: 0}`.
  - `HandleNewMessage` is the push handler's decision.
  - `Off`, `On`, `Subscribed`, `CleanedUp` and `Resubscribed` do the listener
    bookkeeping.
  - The lemmas state what these guarantee over any number of calls.
- `ChatStore` (`store.dfy`): the class `ChatProvider`, with one method per
  transition. Its `Valid()` invariant says what the listener discipline
  guarantees: while mounted, exactly one handler is registered on the current
  socket (none when there is no socket), and that handler sees the current
  selection. After teardown, no handler is registered.
- `ChatScenarios` (`scenarios.dfy`): concrete walks through the store, proved
  from the method contracts alone. They cover a roster of {A: 2, B: 0}
  followed by opening A, a push from B while A is open, a send with nothing
  selected, and two selection changes followed by teardown.

Every `await` splits an operation into two atomic steps:

- a method that issues the request, which appends a `Request` to the `outbox`
  log (`GetUsers`, `GetMessages`, `SendMessage`);
- a method that applies the reply, which it receives as a parameter
  (`ReceiveUsers`, `ReceiveMessages`, `ReceiveSent`).

A reply is `Threw(errorMessage)` for a thrown error, or `Answered(body)`. When
`getMessages` and the push handler call `getUsers()`, the model appends one
`FetchUsers` request. The reply to that refresh arrives later through
`ReceiveUsers`.

Outside effects become parameters or logs:

- HTTP replies are method parameters.
- Socket events are calls to `ReceivePush`.
- A change of socket in the authentication context is `ReplaceSocket`.
- `toast.error` calls are appended to the `toasts` log.

Three behaviours of the code are easy to misread, and the model keeps them as written:

- `getUsers` and `getMessages` raise a toast only when the call throws. A reply
  with `success: false` is silently ignored and raises no toast.
- Opening a conversation does not reset the peer's unseen count locally. The
  count changes only through the roster refresh that `ReceiveMessages` issues.
- A JavaScript falsy `senderId` (missing, `null` or `""`) makes the push
  handler drop the event. This is `SenderOf(payload) == None`.

## Model

| member | source | states |
|---|---|---|
| `ChatUpdaters.CountOf` | client/context/ChatContext.jsx:91 | The JavaScript "count or 0" read of an integer count: the result is 0 exactly when the sender has no count or a count of 0, and any other result is the stored count. |
| `ChatUpdaters.Appended` | client/context/ChatContext.jsx:56 | The spread-append keeps the old list as an untouched prefix and puts exactly `x` last, so the length grows by one. |
| `ChatUpdaters.Bumped` | client/context/ChatContext.jsx:89-92 | The sender's count becomes its old count plus 1, where an absent count counts as 0. The key set gains only that sender, and every other entry keeps its value. |
| `ChatUpdaters.Reset` | client/context/ChatContext.jsx:84 | The sender's count becomes 0 whatever it was. The key set gains only that sender, and every other entry keeps its value. |
| `ChatUpdaters.ResetAbsorbsBump` | client/context/ChatContext.jsx:84-92 | Resetting after a bump gives the same map as resetting alone: a message shown from the open peer wipes the count, including the unseen message a push just before added. |
| `ChatUpdaters.SendErrorText` | client/context/ChatContext.jsx:58 | The toast for a refused send is never empty. It is the server's `message` when that is a non-empty string, and `"Send failed"` otherwise. |
| `ChatUpdaters.SenderOf` | client/context/ChatContext.jsx:72 | The handler keeps a payload exactly when it is non-null and its `senderId` is present and non-empty. The sender it keeps is that `senderId`, unchanged. |
| `ChatUpdaters.HandleNewMessage` | client/context/ChatContext.jsx:72-93 | A null payload or one without a sender changes nothing and issues nothing. A payload from the selected peer is appended last with `seen = true` and no other field changed; that peer's count becomes 0, other entries are unchanged, and exactly a seen-mark for the message id and one roster refresh are issued. A payload from anyone else leaves the list alone, raises that sender's count by exactly 1 (from 0 when absent), leaves other entries alone and issues no request. |
| `ChatUpdaters.HandleNewMessageKeepsNonNegative` | client/context/ChatContext.jsx:84-92 | If every count is non-negative before the push handler runs, every count is non-negative after it. |
| `ChatUpdaters.UnselectedPushesCount` | client/context/ChatContext.jsx:71-93 | Take any run of push events, none of them from the selected peer. The message list is unchanged, no request is issued, and each sender's count rises by exactly the number of that sender's events, counting from 0 when the sender had no count. |
| `ChatUpdaters.Off` | client/context/ChatContext.jsx:69 | `off("newMessage")` removes every handler on that socket and leaves the other sockets' handlers alone. |
| `ChatUpdaters.On` | client/context/ChatContext.jsx:71 | `on("newMessage", …)` adds exactly one handler on that socket and leaves the other sockets' handlers alone. |
| `ChatUpdaters.Subscribed` | client/context/ChatContext.jsx:66-71 | Without a socket, `subscribeToMessages` returns before touching any listener. With a socket, off-then-on leaves exactly one handler on it. Other sockets' handlers are left alone. |
| `ChatUpdaters.CleanedUp` | client/context/ChatContext.jsx:100-102 | The effect's cleanup removes every handler on the socket it closed over, does nothing without a socket, and leaves other sockets' handlers alone. |
| `ChatUpdaters.ActiveListeners` | client/context/ChatContext.jsx:67-71 | The listener set the store should hold while mounted has at most one handler: exactly one on the socket when there is a socket, and none when there is no socket. |
| `ChatUpdaters.SubscribeLeavesOne` | client/context/ChatContext.jsx:66-71 | Because `off` runs before `on`, subscribing leaves exactly one handler on the socket, however many were registered before. |
| `ChatUpdaters.ResubscribeKeepsActive` | client/context/ChatContext.jsx:97-103 | Start from the active set. The cleanup on the old socket followed by a subscription on the new socket gives exactly the active set for the new socket. |
| `ChatUpdaters.TeardownLeavesNone` | client/context/ChatContext.jsx:100-102 | The final cleanup leaves no handler registered. |
| `ChatUpdaters.RerunAllKeepsActive` | client/context/ChatContext.jsx:97-103 | Take any sequence of selection and socket changes. It ends with exactly one handler on the last socket and none anywhere else, so no handler is duplicated or left behind. |
| `ChatStore.ChatProvider.constructor` | client/context/ChatContext.jsx:8-13 | Mounting starts with an empty list, an empty roster, no selection and an empty map, then subscribes once, leaving exactly the active listener set. |
| `ChatStore.ChatProvider.GetUsers` | client/context/ChatContext.jsx:16-18 | Issues exactly one roster request. |
| `ChatStore.ChatProvider.ReceiveUsers` | client/context/ChatContext.jsx:19-25 | A successful reply replaces `users` and `unseenMessages` wholesale, defaulting to `[]` and `{}`, with no merge. A reply without `success` changes nothing. A thrown error changes no state and raises exactly one toast with its message. |
| `ChatStore.ChatProvider.GetMessages` | client/context/ChatContext.jsx:29-31 | Issues exactly one history request for the given peer. |
| `ChatStore.ChatProvider.ReceiveMessages` | client/context/ChatContext.jsx:32-39 | A successful reply replaces `messages` wholesale, defaulting to `[]`, and issues exactly one roster refresh. A reply without `success` changes nothing. A thrown error leaves the list unchanged and raises exactly one toast. |
| `ChatStore.ChatProvider.SendMessage` | client/context/ChatContext.jsx:43-53 | With no selected user, it issues no request and raises exactly one "No user selected." toast. Otherwise it issues one post to the selected user's id carrying the draft. |
| `ChatStore.ChatProvider.ReceiveSent` | client/context/ChatContext.jsx:55-62 | `success && newMessage` appends exactly the returned message, unmodified, as the last element. Any other reply leaves the list unchanged and raises one toast with `message` or "Send failed". A thrown error leaves the list unchanged and raises one toast with its message. |
| `ChatStore.ChatProvider.ReceivePush` | client/context/ChatContext.jsx:71-94 | While mounted with a socket, the one registered handler applies `HandleNewMessage` for the current selection to the list, the counts and the outbox. With no handler registered, nothing changes. The listener invariant is kept. |
| `ChatStore.ChatProvider.SelectUser` | client/context/ChatContext.jsx:97-103 | Sets the selection and re-runs the effect. The listener set is unchanged (still exactly one handler on the current socket), and the handler now sees the new selection. |
| `ChatStore.ChatProvider.ReplaceSocket` | client/context/ChatContext.jsx:97-103 | Cleans up on the old socket and subscribes on the new one, leaving exactly one handler on the new socket (none when there is no socket). |
| `ChatStore.ChatProvider.SetUnseenMessages` | client/context/ChatContext.jsx:114 | The exported raw setter installs any map as it is, so non-negativity is not a store invariant. |
| `ChatStore.ChatProvider.Teardown` | client/context/ChatContext.jsx:100-102 | Unmounting removes the handler. No listener is left and the store is no longer mounted. |

## Left out

- `server/routes/messageRoutes.js` only binds four routes to an authentication middleware and to controllers that are not part of this model. It has no logic to verify.
- HTTP calls, the socket transport and `toast` are foreign library calls. They appear as reply parameters, the `ReceivePush` event, and the `outbox` and `toasts` logs.
- The reply to the `PUT /mark/:id` seen-mark has no continuation in the model. The source swallows its failure with `.catch(() => {})`, so no reply, failed or not, can touch the store.
- Interleaving of replies and push events is not modelled, because each step is atomic. A stale reply for a conversation that is no longer open is applied like any other reply, as the source does.
- Aliasing is not modelled. `newMessage.seen = true` mutates the pushed object in place, and the model appends a copy with `seen` set.
- The effect's dependency comparison is by object identity in React. The model compares the selected user by value. The listener state after a re-run is the same either way.
- React rendering, `createContext`/`useContext` and the authentication context plumbing are not modelled. The socket is a parameter of the constructor and of `ReplaceSocket`.
- State setters called after teardown are no-ops in React. Apart from the listener bookkeeping, the model does not disable the data transitions after `Teardown`.
- Values in `unseenMessages` are assumed to be integers. A non-numeric value from the server would make `(prev[k] || 0) + 1` a string concatenation in JavaScript.
- Odd reply bodies are not a case of their own. A `null` or `undefined` body makes `data.success` throw, so it is a `Threw` reply. A string or number body (an HTML page axios could not parse, say) reads every field as `undefined`. It is an `Answered` reply with `success` false and every optional field `None`: `getUsers` and `getMessages` ignore it, and `sendMessage` toasts "Send failed".
