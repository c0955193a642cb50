/** The state transforms of the conversation page: merging a pushed message into the open
    conversation, finding the other participant, and the guard on sending. */
module ConversationPage {
  import opened Builtins
  import opened Types

  /** `handleNewMessage` applied to the page's conversation state `prev`, for the page
      showing conversation `openId`. */
  function HandleNewMessage(openId: string, prev: Option<Conversation>, data: RealtimeMessagePayload): (next: Option<Conversation>)
    ensures data.conversationId != openId ==> next == prev
    ensures prev.None? ==> next.None?
    ensures prev.Some? && HasMessage(prev.value, data.message.id) ==> next == prev
    ensures prev.Some? && data.conversationId == openId && !HasMessage(prev.value, data.message.id) ==>
      next == Some(prev.value.(messages := prev.value.messages + [data.message]))
  {
    if data.conversationId != openId then prev
    else match prev
      case None => None
      case Some(c) =>
        if HasMessage(c, data.message.id) then prev
        else Some(c.(messages := c.messages + [data.message]))
  }

  /** Delivering the same payload twice leaves the page as delivering it once. */
  lemma MergeIsIdempotent(openId: string, prev: Option<Conversation>, data: RealtimeMessagePayload)
    ensures HandleNewMessage(openId, HandleNewMessage(openId, prev, data), data) == HandleNewMessage(openId, prev, data)
  {
    var once := HandleNewMessage(openId, prev, data);
    if prev.Some? && data.conversationId == openId && !HasMessage(prev.value, data.message.id) {
      var ms := once.value.messages;
      assert ms[|ms| - 1] == data.message;
      assert HasMessage(once.value, data.message.id);
    }
  }

  /** No two messages share an id. */
  predicate UniqueIds(c: Conversation)
  {
    forall i, j :: 0 <= i < j < |c.messages| ==> c.messages[i].id != c.messages[j].id
  }

  /** Merging keeps the earlier messages in order, adds at most the pushed one, and never
      makes two messages share an id. */
  lemma MergeKeepsIdsUnique(openId: string, c: Conversation, data: RealtimeMessagePayload)
    requires UniqueIds(c)
    ensures var next := HandleNewMessage(openId, Some(c), data);
      && next.Some?
      && UniqueIds(next.value)
      && c.messages <= next.value.messages
      && |next.value.messages| <= |c.messages| + 1
  {
    var next := HandleNewMessage(openId, Some(c), data).value;
    if next != c {
      var ms := next.messages;
      forall i, j | 0 <= i < j < |ms| ensures ms[i].id != ms[j].id {
        if j == |ms| - 1 {
          assert ms[i] == c.messages[i];
        }
      }
    }
  }

  /** The messages the page's own update puts on screen: the reducer schedules a render only
      when it hands back a state other than `prev`; otherwise this update leaves the last
      render as it was (a render caused by something else may still show the new state). */
  function ShownAfter(shown: seq<Message>, prev: Option<Conversation>, next: Option<Conversation>): seq<Message>
  {
    if next != prev && next.Some? then next.value.messages else shown
  }

  /** As the app is written, the page state is the store's own conversation object
      (`getConversationById` returns it), and `addMessage` appends the new message to that
      object before the broadcast. So the reducer meets a state that already holds the
      message and hands back `prev`: the push itself schedules no render, and the new
      message appears only with the next render that something else causes. */
  lemma SharedConversationHidesPush(fetched: Conversation, m: Message)
    requires !HasMessage(fetched, m.id)
    ensures var shared := fetched.(messages := fetched.messages + [m]);
      var next := HandleNewMessage(fetched.id, Some(shared), Payload(m, fetched.id));
      && next == Some(shared)
      && ShownAfter(fetched.messages, Some(shared), next) == fetched.messages
      && m !in ShownAfter(fetched.messages, Some(shared), next)
  {
    var shared := fetched.(messages := fetched.messages + [m]);
    assert shared.messages[|fetched.messages|] == m;
  }

  /** With a page state of its own (a copy of the conversation as fetched), the same push
      takes the append branch and the screen shows the stored conversation's messages,
      the new one last. */
  lemma CopiedConversationShowsPush(fetched: Conversation, m: Message)
    requires !HasMessage(fetched, m.id)
    ensures var next := HandleNewMessage(fetched.id, Some(fetched), Payload(m, fetched.id));
      && next == Some(fetched.(messages := fetched.messages + [m]))
      && ShownAfter(fetched.messages, Some(fetched), next) == fetched.messages + [m]
  {
    var next := HandleNewMessage(fetched.id, Some(fetched), Payload(m, fetched.id));
    assert |next.value.messages| == |fetched.messages| + 1;
  }

  /** `otherParticipant`: the first participant whose id differs from the current user's;
      when nobody is logged in, the comparison is with `undefined` and so the first
      participant is taken. */
  function OtherParticipant(conversation: Option<Conversation>, currentUser: Option<User>): (r: Option<User>)
    ensures conversation.None? ==> r.None?
    ensures r.Some? ==> currentUser.None? || r.value.id != currentUser.value.id
    ensures conversation.Some? ==>
      var ps := conversation.value.participants;
      && (r.None? <==> forall i :: 0 <= i < |ps| ==> currentUser.Some? && ps[i].id == currentUser.value.id)
      && (r.Some? ==> exists k :: 0 <= k < |ps| && ps[k] == r.value &&
                                  forall j :: 0 <= j < k ==> currentUser.Some? && ps[j].id == currentUser.value.id)
  {
    match conversation
    case None => None
    case Some(c) => Find(c.participants, (p: User) => currentUser.None? || p.id != currentUser.value.id)
  }

  /** What `handleSendMessage` passes to `sendMessage`. */
  datatype SendRequest = SendRequest(senderId: string, receiverId: string, text: string)

  /** `handleSendMessage`: nothing is sent when the text is blank, nobody is logged in or
      there is no other participant; otherwise the text is sent as typed, untrimmed. */
  function HandleSendMessage(text: string, currentUser: Option<User>, other: Option<User>): (r: Option<SendRequest>)
    ensures r.None? <==> Trim(text) == [] || currentUser.None? || other.None?
    ensures r.Some? ==> r.value == SendRequest(currentUser.value.id, other.value.id, text)
  {
    if Trim(text) == [] || currentUser.None? || other.None? then None
    else Some(SendRequest(currentUser.value.id, other.value.id, text))
  }

  /** Sending is refused exactly for text made of white space only, or without a sender or
      receiver. */
  lemma BlankTextIsNotSent(text: string, currentUser: Option<User>, other: Option<User>)
    ensures HandleSendMessage(text, currentUser, other).None? <==>
      (forall i :: 0 <= i < |text| ==> IsWhiteSpace(text[i])) || currentUser.None? || other.None?
  {
    TrimEmpty(text);
  }
}
