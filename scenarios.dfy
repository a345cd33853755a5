/** Concrete walks through the store, proved from the method contracts alone. */
module ChatScenarios {
  import opened ChatTypes
  import opened ChatUpdaters
  import opened ChatStore

  /** Roster {A: 2, B: 0}, then A's conversation opened: the snapshot is taken as
      it is, the history replaces the list, and one more roster refresh is issued. */
  method RosterThenConversation(a: User, b: User, m1: Message, m2: Message)
    requires a.id == "A" && b.id == "B"
  {
    var store := new ChatProvider(Some(7));
    store.ReceiveUsers(Answered(UsersBody(true, Some([a, b]), Some(map["A" := 2, "B" := 0]))));
    assert store.unseenMessages["A"] == 2;
    store.SelectUser(Some(a));
    var before := store.outbox;
    store.ReceiveMessages(Answered(MessagesBody(true, Some([m1, m2]))));
    assert store.messages == [m1, m2];
    assert store.outbox == before + [FetchUsers];
  }

  /** A is open and B pushes a message: B's count rises by one, the list is
      unchanged, and no seen-mark is requested. */
  method PushFromOtherPeer(a: User, m9: Message)
    requires a.id == "A" && m9.senderId == Some("B")
  {
    var store := new ChatProvider(Some(7));
    store.SelectUser(Some(a));
    var shown, issued, counts := store.messages, store.outbox, store.unseenMessages;
    store.ReceivePush(Some(m9));
    assert !FromSelected(Some(a), Some(m9));
    assert store.unseenMessages["B"] == CountOf(counts, "B") + 1;
    assert store.messages == shown && store.outbox == issued;
  }

  /** With nothing selected a send raises one toast and issues no request. */
  method SendWithoutSelection(d: Draft)
  {
    var store := new ChatProvider(Some(7));
    store.SendMessage(d);
    assert store.outbox == [] && store.toasts == [NoUserSelected];
  }

  /** Two selection changes in succession leave one handler; teardown leaves none. */
  method SelectTwiceThenTeardown(a: User, b: User)
  {
    var store := new ChatProvider(Some(7));
    store.SelectUser(Some(b));
    store.SelectUser(Some(a));
    assert store.listeners == multiset{7};
    store.Teardown();
    assert store.listeners == multiset{};
  }
}
