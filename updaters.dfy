/** The pure state updaters of the conversation store: the functions the store
    hands to its setters (`[...prev, x]`, `{ ...prev, [k]: v }`), the decision the
    "newMessage" push handler makes, and the socket listener bookkeeping done by
    `socket.off` / `socket.on`. The store class applies them; the lemmas here
    are what they guarantee over any number of calls. */
module ChatUpdaters {
  import opened ChatTypes

  // ---------------------------------------------------------------------------
  // Sequence and map updaters
  // ---------------------------------------------------------------------------

  /** `[...prev, x]`: the old list, untouched, followed by `x`. */
  function Appended<T>(prev: seq<T>, x: T): (r: seq<T>)
    ensures |r| == |prev| + 1
    ensures r[..|prev|] == prev && r[|prev|] == x
  {
    prev + [x]
  }

  /** `prev[k] || 0` for an integer-valued map: an absent count reads as 0. */
  function CountOf(counts: map<Id, int>, k: Id): (r: int)
    ensures r == 0 <==> k !in counts || counts[k] == 0
    ensures r != 0 ==> k in counts && r == counts[k]
  {
    if k in counts then counts[k] else 0
  }

  /** `{ ...prev, [k]: (prev[k] || 0) + 1 }`. */
  function Bumped(counts: map<Id, int>, k: Id): (r: map<Id, int>)
    ensures r.Keys == counts.Keys + {k}
    ensures r[k] == CountOf(counts, k) + 1
    ensures forall j :: j in counts && j != k ==> r[j] == counts[j]
  {
    counts[k := CountOf(counts, k) + 1]
  }

  /** `{ ...prev, [k]: 0 }`. */
  function Reset(counts: map<Id, int>, k: Id): (r: map<Id, int>)
    ensures r.Keys == counts.Keys + {k}
    ensures r[k] == 0
    ensures forall j :: j in counts && j != k ==> r[j] == counts[j]
  {
    counts[k := 0]
  }

  /** Every unseen count is non-negative. */
  ghost predicate NonNegative(counts: map<Id, int>) {
    forall k :: k in counts ==> counts[k] >= 0
  }

  /** Showing a message from a peer wipes whatever count the peer had, including
      the unseen message a push just before added. */
  lemma ResetAbsorbsBump(counts: map<Id, int>, k: Id)
    ensures Reset(Bumped(counts, k), k) == Reset(counts, k)
  {
  }

  /** `data.message || "Send failed"`: the text of the toast raised when a send is refused. */
  function SendErrorText(message: Option<string>): (r: string)
    ensures r != ""
    ensures Truthy(message) ==> r == message.value
    ensures !Truthy(message) ==> r == SendFailed
  {
    if Truthy(message) then message.value else SendFailed
  }

  // ---------------------------------------------------------------------------
  // The "newMessage" push handler
  // ---------------------------------------------------------------------------

  /** The sender of a push payload, or None when the handler drops it
      (`!newMessage || !newMessage.senderId`). */
  function SenderOf(payload: Option<Message>): (r: Option<Id>)
    ensures r.Some? <==> payload.Some? && Truthy(payload.value.senderId)
    ensures r.Some? ==> r == payload.value.senderId && r.value != ""
  {
    if payload.Some? && Truthy(payload.value.senderId) then payload.value.senderId else None
  }

  /** The payload comes from the peer whose conversation is open. */
  predicate FromSelected(selected: Option<User>, payload: Option<Message>) {
    SenderOf(payload).Some? && selected.Some? && SenderOf(payload).value == selected.value.id
  }

  /** What one run of the push handler leaves behind: the message list, the
      unseen counts, and the requests it issued, in order. */
  datatype PushResult = PushResult(messages: seq<Message>, unseen: map<Id, int>, requests: seq<Request>)

  /** The handler registered for "newMessage", run against the selection it closed over. */
  function HandleNewMessage(selected: Option<User>, messages: seq<Message>, unseen: map<Id, int>,
                            payload: Option<Message>): (r: PushResult)
    // a payload that is null or has no sender changes nothing and issues nothing
    ensures SenderOf(payload).None? ==> r == PushResult(messages, unseen, [])
    // from the open conversation: shown at the end as seen, count wiped, seen-mark and roster refresh issued
    ensures FromSelected(selected, payload) ==>
      var k := SenderOf(payload).value;
      && |r.messages| == |messages| + 1
      && r.messages[..|messages|] == messages
      && r.messages[|messages|] == payload.value.(seen := true)
      && r.unseen.Keys == unseen.Keys + {k}
      && r.unseen[k] == 0
      && (forall j :: j in unseen && j != k ==> r.unseen[j] == unseen[j])
      && r.requests == [MarkSeen(payload.value.id), FetchUsers]
    // from anyone else: one more unseen message from that sender, nothing else moves
    ensures SenderOf(payload).Some? && !FromSelected(selected, payload) ==>
      var k := SenderOf(payload).value;
      && r.messages == messages
      && r.unseen.Keys == unseen.Keys + {k}
      && r.unseen[k] == CountOf(unseen, k) + 1
      && (forall j :: j in unseen && j != k ==> r.unseen[j] == unseen[j])
      && r.requests == []
  {
    match SenderOf(payload)
    case None => PushResult(messages, unseen, [])
    case Some(k) =>
      if selected.Some? && k == selected.value.id then
        PushResult(Appended(messages, payload.value.(seen := true)), Reset(unseen, k),
                   [MarkSeen(payload.value.id), FetchUsers])
      else
        PushResult(messages, Bumped(unseen, k), [])
  }

  /** The push handler keeps unseen counts non-negative (the server snapshot and
      the raw `setUnseenMessages` setter are not bound by this). */
  lemma HandleNewMessageKeepsNonNegative(selected: Option<User>, messages: seq<Message>,
                                         unseen: map<Id, int>, payload: Option<Message>)
    requires NonNegative(unseen)
    ensures NonNegative(HandleNewMessage(selected, messages, unseen, payload).unseen)
  {
  }

  /** The handler run on each payload in turn, requests accumulated in order. */
  function DeliverAll(selected: Option<User>, state: PushResult, payloads: seq<Option<Message>>): PushResult
    decreases |payloads|
  {
    if payloads == [] then state
    else
      var step := HandleNewMessage(selected, state.messages, state.unseen, payloads[0]);
      DeliverAll(selected, PushResult(step.messages, step.unseen, state.requests + step.requests), payloads[1..])
  }

  /** How many payloads the handler attributes to sender `k`. */
  function Occurrences(payloads: seq<Option<Message>>, k: Id): nat
    decreases |payloads|
  {
    if payloads == [] then 0
    else (if SenderOf(payloads[0]) == Some(k) then 1 else 0) + Occurrences(payloads[1..], k)
  }

  /** Any run of pushes none of which comes from the open conversation leaves the
      message list as it was, issues no request, and raises each sender's unseen
      count by exactly the number of its messages, counting from 0 when absent. */
  lemma {:induction false} UnselectedPushesCount(selected: Option<User>, state: PushResult,
                                                 payloads: seq<Option<Message>>)
    requires forall i :: 0 <= i < |payloads| ==> !FromSelected(selected, payloads[i])
    ensures DeliverAll(selected, state, payloads).messages == state.messages
    ensures DeliverAll(selected, state, payloads).requests == state.requests
    ensures forall k :: CountOf(DeliverAll(selected, state, payloads).unseen, k)
                        == CountOf(state.unseen, k) + Occurrences(payloads, k)
    decreases |payloads|
  {
    if payloads != [] {
      var step := HandleNewMessage(selected, state.messages, state.unseen, payloads[0]);
      var next := PushResult(step.messages, step.unseen, state.requests + step.requests);
      assert forall k :: CountOf(next.unseen, k)
                         == CountOf(state.unseen, k) + (if SenderOf(payloads[0]) == Some(k) then 1 else 0);
      UnselectedPushesCount(selected, next, payloads[1..]);
    }
  }

  // ---------------------------------------------------------------------------
  // "newMessage" listener bookkeeping
  // ---------------------------------------------------------------------------

  /** `socket.off("newMessage")`: every handler on that socket is removed. */
  function Off(listeners: multiset<SocketId>, s: SocketId): (r: multiset<SocketId>)
    ensures r[s] == 0
    ensures forall t {:trigger r[t]} :: t != s ==> r[t] == listeners[t]
  {
    listeners[s := 0]
  }

  /** `socket.on("newMessage", handler)`: one more handler on that socket. */
  function On(listeners: multiset<SocketId>, s: SocketId): (r: multiset<SocketId>)
    ensures r[s] == listeners[s] + 1
    ensures forall t {:trigger r[t]} :: t != s ==> r[t] == listeners[t]
  {
    listeners + multiset{s}
  }

  /** `subscribeToMessages`: nothing without a socket, otherwise off before on. */
  function Subscribed(listeners: multiset<SocketId>, socket: Option<SocketId>): (r: multiset<SocketId>)
    ensures socket.None? ==> r == listeners
    ensures socket.Some? ==> r[socket.value] == 1
    ensures forall t {:trigger r[t]} :: Some(t) != socket ==> r[t] == listeners[t]
  {
    match socket
    case None => listeners
    case Some(s) => On(Off(listeners, s), s)
  }

  /** The effect's cleanup: `if (socket) socket.off("newMessage")`, on the socket it closed over. */
  function CleanedUp(listeners: multiset<SocketId>, socket: Option<SocketId>): (r: multiset<SocketId>)
    ensures socket.None? ==> r == listeners
    ensures socket.Some? ==> r[socket.value] == 0
    ensures forall t {:trigger r[t]} :: Some(t) != socket ==> r[t] == listeners[t]
  {
    match socket
    case None => listeners
    case Some(s) => Off(listeners, s)
  }

  /** A change of socket or selected user: the previous run's cleanup on the old
      socket, then a fresh subscription on the new one. */
  function Resubscribed(listeners: multiset<SocketId>, oldSocket: Option<SocketId>,
                        newSocket: Option<SocketId>): multiset<SocketId> {
    Subscribed(CleanedUp(listeners, oldSocket), newSocket)
  }

  /** The listeners that should be registered while the store is mounted:
      exactly one, on the current socket, or none without a socket. */
  function ActiveListeners(socket: Option<SocketId>): (r: multiset<SocketId>)
    ensures |r| <= 1
    ensures socket.Some? ==> r[socket.value] == 1
    ensures socket.None? ==> r == multiset{}
  {
    match socket
    case None => multiset{}
    case Some(s) => multiset{s}
  }

  /** Subscribing never stacks handlers: whatever was registered before, exactly
      one handler is left on the subscribed socket. */
  lemma SubscribeLeavesOne(listeners: multiset<SocketId>, s: SocketId)
    ensures Subscribed(listeners, Some(s))[s] == 1
  {
  }

  /** One dependency change keeps exactly the active listener set. */
  lemma ResubscribeKeepsActive(oldSocket: Option<SocketId>, newSocket: Option<SocketId>)
    ensures Resubscribed(ActiveListeners(oldSocket), oldSocket, newSocket) == ActiveListeners(newSocket)
  {
  }

  /** The cleanup at teardown leaves no listener behind. */
  lemma TeardownLeavesNone(socket: Option<SocketId>)
    ensures CleanedUp(ActiveListeners(socket), socket) == multiset{}
  {
  }

  /** Successive re-runs of the effect, the i-th one with socket `sockets[i]`
      (the same socket again when only the selected user changed). */
  function RerunAll(listeners: multiset<SocketId>, socket: Option<SocketId>,
                    sockets: seq<Option<SocketId>>): multiset<SocketId>
    decreases |sockets|
  {
    if sockets == [] then listeners
    else RerunAll(Resubscribed(listeners, socket, sockets[0]), sockets[0], sockets[1..])
  }

  /** The last socket of a run of dependency changes. */
  function LastSocket(socket: Option<SocketId>, sockets: seq<Option<SocketId>>): Option<SocketId> {
    if sockets == [] then socket else sockets[|sockets| - 1]
  }

  /** Any sequence of selection and socket changes, starting from the active
      listener set, ends with exactly one handler on the final socket and none
      anywhere else. */
  lemma {:induction false} RerunAllKeepsActive(socket: Option<SocketId>, sockets: seq<Option<SocketId>>)
    ensures RerunAll(ActiveListeners(socket), socket, sockets) == ActiveListeners(LastSocket(socket, sockets))
    decreases |sockets|
  {
    if sockets != [] {
      ResubscribeKeepsActive(socket, sockets[0]);
      RerunAllKeepsActive(sockets[0], sockets[1..]);
      assert LastSocket(sockets[0], sockets[1..]) == LastSocket(socket, sockets);
    }
  }
}
