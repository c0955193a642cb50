/** The records the application passes around. Timestamps are whole milliseconds, the
    order key the conversation list sorts by. */
module Types {

  datatype Day = Sunday | Monday | Tuesday | Wednesday | Thursday | Friday | Saturday

  /** The weekly availability of a tutor: the time slots offered on each listed day. */
  type Availability = map<Day, seq<string>>

  datatype User = User(id: string, name: string, imageUrl: string)

  datatype Tutor = Tutor(
    id: string,
    name: string,
    reviewCount: int,
    location: string,
    subjects: seq<string>,
    description: string,
    imageUrl: string,
    experience: int,
    qualifications: seq<string>,
    hourlyRate: int,
    availability: Availability,
    isVerified: bool)

  datatype Message = Message(id: string, senderId: string, text: string, timestamp: int)

  datatype Conversation = Conversation(id: string, participants: seq<User>, messages: seq<Message>)

  /** What the messaging service delivers to its listeners. */
  datatype RealtimeMessagePayload = Payload(message: Message, conversationId: string)

  /** Someone in the conversation has the given id. */
  predicate HasParticipant(c: Conversation, userId: string)
  {
    exists i :: 0 <= i < |c.participants| && c.participants[i].id == userId
  }

  /** The conversation holds a message with the given id. */
  predicate HasMessage(c: Conversation, messageId: string)
  {
    exists i :: 0 <= i < |c.messages| && c.messages[i].id == messageId
  }
}
