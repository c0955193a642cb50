/** The in-process stand-in for a push channel: a set of listeners, the id of the connected
    user, fan-out of each message, and the scripted reply a tutor sends to a student. */
module Messaging {
  import opened Builtins
  import opened Types
  import opened MockApi

  /** The identity of a subscribed callback. */
  type Listener = nat

  /** One call `listener(payload)` made by a broadcast. */
  datatype Delivery = Delivery(listener: Listener, payload: RealtimeMessagePayload)

  /** A reply the service has set on a timer: who sends it, to whom, and its text. */
  datatype ScheduledReply = ScheduledReply(senderId: string, receiverId: string, text: string)

  /** The listener set keeps insertion order and no listener twice. */
  predicate NoDuplicates(ls: seq<Listener>)
  {
    forall i, j :: 0 <= i < j < |ls| ==> ls[i] != ls[j]
  }

  /** `Set.add` */
  function AddListener(ls: seq<Listener>, l: Listener): (r: seq<Listener>)
    ensures forall x :: x in r <==> x in ls || x == l
    ensures l in ls ==> r == ls
    ensures l !in ls ==> r == ls + [l]
    ensures NoDuplicates(ls) ==> NoDuplicates(r)
  {
    if l in ls then ls else ls + [l]
  }

  /** The test that keeps every listener but `l`. */
  function IsNot(l: Listener): Listener -> bool
  {
    x => x != l
  }

  /** `Set.delete` */
  function RemoveListener(ls: seq<Listener>, l: Listener): (r: seq<Listener>)
    ensures forall x :: x in r <==> x in ls && x != l
    ensures l !in ls ==> r == ls
  {
    if l in ls then FilterKeepsPassing(ls, IsNot(l)); Filter(ls, IsNot(l))
    else FilterKeepsAll(ls, IsNot(l)); Filter(ls, IsNot(l))
  }

  /** Removing keeps the listeners distinct. */
  lemma {:induction false} RemoveKeepsDistinct(ls: seq<Listener>, l: Listener)
    requires NoDuplicates(ls)
    ensures NoDuplicates(RemoveListener(ls, l))
  {
    if ls != [] {
      RemoveKeepsDistinct(ls[1..], l);
      var rest := RemoveListener(ls[1..], l);
      assert ls[0] !in ls[1..];
      assert ls[0] !in rest;
      assert Filter(ls, IsNot(l)) == (if ls[0] != l then [ls[0]] else []) + rest;
    }
  }

  /** The calls `forEach(listener => listener(data))` makes, in the set's order. */
  function Deliveries(ls: seq<Listener>, data: RealtimeMessagePayload): (r: seq<Delivery>)
    ensures |r| == |ls|
  {
    if ls == [] then [] else Deliveries(ls[..|ls| - 1], data) + [Delivery(ls[|ls| - 1], data)]
  }

  /** The number of calls made to one listener. */
  function CallsTo(ds: seq<Delivery>, l: Listener): nat
  {
    if ds == [] then 0
    else CallsTo(ds[..|ds| - 1], l) + (if ds[|ds| - 1].listener == l then 1 else 0)
  }

  /** A broadcast calls every subscribed listener exactly once, always with the payload, and
      no one else. */
  lemma {:induction false} EachListenerCalledOnce(ls: seq<Listener>, data: RealtimeMessagePayload, l: Listener)
    requires NoDuplicates(ls)
    ensures CallsTo(Deliveries(ls, data), l) == if l in ls then 1 else 0
    ensures forall i :: 0 <= i < |ls| ==> Deliveries(ls, data)[i] == Delivery(ls[i], data)
  {
    if ls != [] {
      var init := ls[..|ls| - 1];
      assert NoDuplicates(init);
      EachListenerCalledOnce(init, data, l);
      var ds := Deliveries(ls, data);
      assert ds[..|ds| - 1] == Deliveries(init, data);
      assert ls == init + [ls[|ls| - 1]];
      assert ls[|ls| - 1] !in init;
    }
  }

  /** `"Thanks for your message! I'll get back to you about \"<first 20 characters>...\" shortly."` */
  function ReplyText(original: string): (r: string)
    ensures var quoted := original[..Min(20, |original|)];
      r == "Thanks for your message! I'll get back to you about \"" + quoted + "...\" shortly."
  {
    "Thanks for your message! I'll get back to you about \"" + Substring(original, 0, 20) + "...\" shortly."
  }

  /** `simulateTutorResponse`: a reply is set on its timer only for a message from a
      student whose conversation has a tutor with a non-empty id in it; the tutor answers
      the student. */
  function SimulateTutorResponse(m: Message, conversations: seq<Conversation>): (r: Option<ScheduledReply>)
    ensures r.Some? <==>
      && Includes(m.senderId, "student")
      && GetTutorIdFromMessage(conversations, m).Some?
      && GetTutorIdFromMessage(conversations, m).value != ""
    ensures r.Some? ==>
      && r.value.senderId == GetTutorIdFromMessage(conversations, m).value
      && !Includes(r.value.senderId, "student")
      && r.value.receiverId == m.senderId
      && r.value.text == ReplyText(m.text)
  {
    if !Includes(m.senderId, "student") then None
    else match GetTutorIdFromMessage(conversations, m)
      case None => None
      case Some(tutorId) =>
        if tutorId == "" then None  // an empty id is falsy
        else Some(ScheduledReply(tutorId, m.senderId, ReplyText(m.text)))
  }

  /** Subscribing a callback twice is the same as subscribing it once. */
  lemma SubscribeIsIdempotent(ls: seq<Listener>, l: Listener)
    ensures AddListener(AddListener(ls, l), l) == AddListener(ls, l)
  {
  }

  /** The tutor's reply never triggers a reply of its own, whatever the store holds when
      it is sent. */
  lemma ReplyIsNotAnswered(m: Message, conversations: seq<Conversation>,
                           replyId: string, timestamp: int, later: seq<Conversation>)
    requires SimulateTutorResponse(m, conversations).Some?
    ensures var reply := SimulateTutorResponse(m, conversations).value;
      SimulateTutorResponse(Message(replyId, reply.senderId, reply.text, timestamp), later).None?
  {
  }

  /** The service `services/messagingService.ts` exports one instance of. */
  class MessagingService {
    var listeners: seq<Listener>
    var connectedUserId: Option<string>

    ghost predicate Valid()
      reads this
    {
      NoDuplicates(listeners)
    }

    constructor ()
      ensures Valid() && listeners == [] && connectedUserId.None?
    {
      listeners, connectedUserId := [], None;
    }

    method Connect(userId: string)
      modifies this
      ensures connectedUserId == Some(userId) && listeners == old(listeners)
    {
      connectedUserId := Some(userId);
    }

    method Disconnect()
      modifies this
      ensures connectedUserId.None? && listeners == old(listeners)
    {
      connectedUserId := None;
    }

    method Subscribe(l: Listener)
      requires Valid()
      modifies this
      ensures Valid() && listeners == AddListener(old(listeners), l) && connectedUserId == old(connectedUserId)
    {
      listeners := AddListener(listeners, l);
    }

    method Unsubscribe(l: Listener)
      requires Valid()
      modifies this
      ensures Valid() && listeners == RemoveListener(old(listeners), l) && connectedUserId == old(connectedUserId)
    {
      RemoveKeepsDistinct(listeners, l);
      listeners := RemoveListener(listeners, l);
    }

    /** `broadcast`: calls the listeners one by one, in subscription order. */
    method Broadcast(data: RealtimeMessagePayload) returns (calls: seq<Delivery>)
      requires Valid()
      ensures calls == Deliveries(listeners, data)
      ensures forall l :: CallsTo(calls, l) == if l in listeners then 1 else 0
    {
      calls := [];
      var i := 0;
      while i < |listeners|
        invariant 0 <= i <= |listeners|
        invariant calls == Deliveries(listeners[..i], data)
      {
        assert listeners[..i + 1][..i] == listeners[..i];
        calls := calls + [Delivery(listeners[i], data)];
        i := i + 1;
      }
      assert listeners[..i] == listeners;
      forall l ensures CallsTo(calls, l) == if l in listeners then 1 else 0 {
        EachListenerCalledOnce(listeners, data, l);
      }
    }

    /** `notifyNewMessage`: the broadcast, then the auto-reply rule. */
    method NotifyNewMessage(data: RealtimeMessagePayload, conversations: seq<Conversation>)
      returns (calls: seq<Delivery>, reply: Option<ScheduledReply>)
      requires Valid()
      ensures calls == Deliveries(listeners, data)
      ensures reply == SimulateTutorResponse(data.message, conversations)
    {
      calls := Broadcast(data);
      reply := SimulateTutorResponse(data.message, conversations);
    }
  }

  /** `api.sendMessage`: store the message, then notify; a failed store notifies no one.
      It lives here because the two source files import each other. */
  method SendMessage(store: MockStore, service: MessagingService,
                     senderId: string, receiverId: string, text: string,
                     messageId: string, conversationId: string, timestamp: int)
    returns (r: Result<Message>, calls: seq<Delivery>, reply: Option<ScheduledReply>)
    requires store.Valid() && service.Valid()
    modifies store
    ensures store.Valid()
    ensures r.Err? ==> calls == [] && reply.None? && store.conversations == old(store.conversations)
    ensures r.Ok? ==> r.value == Message(messageId, senderId, text, timestamp)
    ensures r.Ok? ==>
      exists c :: c in store.conversations && HasMessage(c, messageId) &&
        calls == Deliveries(service.listeners, Payload(r.value, c.id))
    ensures r.Ok? ==> reply == SimulateTutorResponse(r.value, store.conversations)
    ensures store.tutors == old(store.tutors) && store.users == old(store.users)
    ensures var m := Message(messageId, senderId, text, timestamp);
      var cs := old(store.conversations);
      var k := FindIndex(cs, BetweenTest(senderId, receiverId));
      0 <= k ==>
        && store.conversations == cs[k := cs[k].(messages := cs[k].messages + [m])]
        && r == Ok(m)
        && calls == Deliveries(service.listeners, Payload(m, cs[k].id))
    ensures var m := Message(messageId, senderId, text, timestamp);
      var sender, receiver := Find(store.users, UserIdIs(senderId)), Find(store.users, UserIdIs(receiverId));
      FindIndex(old(store.conversations), BetweenTest(senderId, receiverId)) < 0 ==>
        if sender.Some? && receiver.Some? then
          && store.conversations == old(store.conversations) + [Conversation(conversationId, [sender.value, receiver.value], [m])]
          && r == Ok(m)
          && calls == Deliveries(service.listeners, Payload(m, conversationId))
        else
          && store.conversations == old(store.conversations)
          && r == Err("User not found") && calls == [] && reply.None?
  {
    var added := store.AddMessage(senderId, receiverId, text, messageId, conversationId, timestamp);
    match added
    case Err(e) =>
      r, calls, reply := Err(e), [], None;
    case Ok((m, c)) =>
      AddedMessageIsStored(store, m, c);
      r := Ok(m);
      calls, reply := service.NotifyNewMessage(Payload(m, c.id), store.conversations);
  }

  /** The timer callback of an auto-reply: the tutor's message is stored and broadcast to
      whoever is subscribed when the timer fires. */
  method DeliverReply(store: MockStore, service: MessagingService, reply: ScheduledReply,
                      messageId: string, conversationId: string, timestamp: int)
    returns (r: Result<Message>, calls: seq<Delivery>)
    requires store.Valid() && service.Valid()
    modifies store
    ensures store.Valid()
    ensures r.Err? ==> calls == [] && store.conversations == old(store.conversations)
    ensures r.Ok? ==> r.value == Message(messageId, reply.senderId, reply.text, timestamp)
    ensures r.Ok? ==>
      exists c :: c in store.conversations && HasMessage(c, messageId) &&
        calls == Deliveries(service.listeners, Payload(r.value, c.id))
    ensures store.tutors == old(store.tutors) && store.users == old(store.users)
    ensures var m := Message(messageId, reply.senderId, reply.text, timestamp);
      var cs := old(store.conversations);
      var k := FindIndex(cs, BetweenTest(reply.senderId, reply.receiverId));
      0 <= k ==>
        && store.conversations == cs[k := cs[k].(messages := cs[k].messages + [m])]
        && r == Ok(m)
        && calls == Deliveries(service.listeners, Payload(m, cs[k].id))
    ensures var m := Message(messageId, reply.senderId, reply.text, timestamp);
      var sender, receiver := Find(store.users, UserIdIs(reply.senderId)), Find(store.users, UserIdIs(reply.receiverId));
      FindIndex(old(store.conversations), BetweenTest(reply.senderId, reply.receiverId)) < 0 ==>
        if sender.Some? && receiver.Some? then
          && store.conversations == old(store.conversations) + [Conversation(conversationId, [sender.value, receiver.value], [m])]
          && r == Ok(m)
          && calls == Deliveries(service.listeners, Payload(m, conversationId))
        else
          && store.conversations == old(store.conversations)
          && r == Err("User not found") && calls == []
  {
    var added := store.AddMessage(reply.senderId, reply.receiverId, reply.text, messageId, conversationId, timestamp);
    match added
    case Err(e) =>
      r, calls := Err(e), [];
    case Ok((m, c)) =>
      AddedMessageIsStored(store, m, c);
      r := Ok(m);
      calls := service.Broadcast(Payload(m, c.id));
  }

  /** The conversation `AddMessage` hands back is in the store and ends with the message. */
  lemma AddedMessageIsStored(store: MockStore, m: Message, c: Conversation)
    requires |c.messages| > 0 && c.messages[|c.messages| - 1] == m
    requires c in store.conversations
    ensures HasMessage(c, m.id)
  {
  }
}
